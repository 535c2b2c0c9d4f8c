/** The weather tool: the status branch of its fetch, the builder of its
    `tool` message, and its schema. The HTTP request itself is an outcome
    given to the model. */
module Weather {
  import opened Json
  import opened Protocol

  /** What the HTTP GET for one location gives `get_weather`: the request
      raising, or a response with its status code and the current temperature
      read from its body (`None` when reading it raises). */
  datatype HttpReply = ConnectionFailed | HttpResponse(status: int, tempC: Option<real>)

  /** The default of `get_weather`'s own `location` parameter. */
  const GetWeatherDefaultLocation: string := "Melbourne"

  const WeatherToolName: string := "get_weather"

  /** `get_weather` after the request: `None` when it raises, the sentinel 0.0
      for any status but 200, and the body's temperature otherwise. */
  function GetWeather(reply: HttpReply): (t: Option<real>)
    ensures reply.ConnectionFailed? ==> t.None?
    ensures reply.HttpResponse? && reply.status != 200 ==> t == Some(0.0)
    ensures reply.HttpResponse? && reply.status == 200 ==> t == reply.tempC
  {
    match reply
    case ConnectionFailed => None
    case HttpResponse(status, tempC) =>
      if status != 200 then Some(0.0) else tempC
  }

  /** A response with a status other than 200 gives the sentinel whatever its body holds. */
  lemma FailedStatusIgnoresBody(status: int, body1: Option<real>, body2: Option<real>)
    requires status != 200
    ensures GetWeather(HttpResponse(status, body1)) == GetWeather(HttpResponse(status, body2)) == Some(0.0)
  {
  }

  /** The location the builder asks for: the argument when present, otherwise Melbourne. */
  function WeatherLocation(args: Args): (location: Value)
    ensures "location" in args ==> location == args["location"]
    ensures "location" !in args ==> location == VString("Melbourne")
  {
    GetOr(args, "location", VString("Melbourne"))
  }

  /** `process_weather_response`: decode the arguments, fetch the weather for the
      chosen location and wrap its string form in a `tool` message answering
      the call. `None` when decoding or the fetch raises. */
  function ProcessWeatherResponse(call: ToolCall, parse: Parser, fetch: Value -> HttpReply,
                                  render: real -> string): (m: Option<Message>)
    ensures m.Some? <==>
              parse(call.arguments).Some? &&
              GetWeather(fetch(WeatherLocation(parse(call.arguments).value))).Some?
    ensures m.Some? ==>
              && m.value.ToolResult?
              && m.value.toolCallId == call.id
              && m.value.name == WeatherToolName
              && m.value.content == render(GetWeather(fetch(WeatherLocation(parse(call.arguments).value))).value)
  {
    match parse(call.arguments)
    case None => None
    case Some(args) =>
      match GetWeather(fetch(WeatherLocation(args)))
      case None => None
      case Some(temperature) => Some(ToolResult(call.id, WeatherToolName, render(temperature)))
  }

  /** Arguments without a location fetch Melbourne's weather. */
  lemma MissingLocationFetchesMelbourne(call: ToolCall, parse: Parser, fetch: Value -> HttpReply,
                                        render: real -> string)
    requires parse(call.arguments).Some? && "location" !in parse(call.arguments).value
    requires GetWeather(fetch(VString("Melbourne"))).Some?
    ensures ProcessWeatherResponse(call, parse, fetch, render) ==
              Some(ToolResult(call.id, "get_weather", render(GetWeather(fetch(VString("Melbourne"))).value)))
  {
  }

  /** An upstream error status still answers the call, with the string form of 0.0. */
  lemma ErrorStatusAnswersWithSentinel(call: ToolCall, parse: Parser, fetch: Value -> HttpReply,
                                       render: real -> string)
    requires parse(call.arguments).Some?
    requires fetch(WeatherLocation(parse(call.arguments).value)).HttpResponse?
    requires fetch(WeatherLocation(parse(call.arguments).value)).status != 200
    ensures ProcessWeatherResponse(call, parse, fetch, render) ==
              Some(ToolResult(call.id, "get_weather", render(0.0)))
  {
  }

  /** The schema offered to the completion service for `get_weather`. */
  const WeatherSchema: ToolSchema := ToolSchema(
    "get_weather",
    "Get current weather information for a specified location",
    [ Param("location", StringType,
            "The city or location to get weather for (e.g., 'Melbourne', 'Sydney', 'New York')",
            None, Some(VString("Melbourne"))) ],
    [])

  /** The schema requires nothing, and its declared default for `location` is
      both the builder's fallback and `get_weather`'s own parameter default. */
  lemma WeatherSchemaAgrees()
    ensures WellFormed(WeatherSchema)
    ensures WeatherSchema.required == []
    ensures ParamNamed(WeatherSchema.params, "location").Some?
    ensures ParamNamed(WeatherSchema.params, "location").value.default == Some(WeatherLocation(map[]))
    ensures WeatherLocation(map[]) == VString(GetWeatherDefaultLocation)
  {
  }
}
