/** The `get_todays_jobs` tool the model may call: its schema, its arguments
    and the closure that defaults the date and hands over to the search. */
module JobSearchTool {
  import opened Wrappers
  import opened Strings
  import opened Dates
  import opened Generation
  import JobSearchService

  /** The tool's arguments: the category and, optionally, the date. */
  datatype JobSearchInput = JobSearchInput(category: string, date: Option<string>)

  /** The tool's answer. */
  datatype JobSearchOutput = JobSearchOutput(toolResult: string)

  datatype Presence = Required | Optional

  /** One parameter of the schema; every parameter of this tool is a
      string. */
  datatype Parameter = Parameter(name: string, presence: Presence, description: string)

  datatype ToolSchema = ToolSchema(name: string, description: string, parameters: seq<Parameter>)

  const ToolName: string := "get_todays_jobs"

  /** The schema the model is shown. */
  const Schema: ToolSchema := ToolSchema(
    ToolName,
    "Get jobs posted today or on a given date in a specific category from dev.bg",
    [ Parameter("category", Required,
                "The job category (e.g., 'Data Science', 'Software Development', 'DevOps')."),
      Parameter("date", Optional,
                "The date to search (e.g., 'today', 'yesterday', '2024-06-15'). Defaults to 'today'.") ])

  /** The schema's shape: the tool's name, a required category and an
      optional date, and nothing else. */
  lemma SchemaShape()
    ensures Schema.name == "get_todays_jobs"
    ensures |Schema.parameters| == 2
    ensures Schema.parameters[0].name == "category" && Schema.parameters[0].presence == Required
    ensures Schema.parameters[1].name == "date" && Schema.parameters[1].presence == Optional
  {
  }

  /** The date the closure searches for: the given one when it is present
      and not empty, "today" otherwise. */
  function EffectiveDate(date: Option<string>): (d: string)
    ensures d != []
    ensures d == "today" || date == Some(d)
  {
    if date.Some? && date.value != [] then date.value else "today"
  }

  /** A missing date and an empty one both mean "today"; a non-empty date is
      passed on unchanged, surrounding whitespace included. */
  lemma EffectiveDateCases(date: Option<string>)
    ensures date.None? || date == Some([]) ==> EffectiveDate(date) == "today"
    ensures date.Some? && date.value != [] ==> EffectiveDate(date) == date.value
  {
  }

  /** The closure: the category unchanged and the defaulted date go to the
      search, whose report becomes the output and whose error propagates.
      A blank category is answered without a search, and every output has
      some text. */
  function Call(input: JobSearchInput, now: Day, site: JobSearchService.Site): (r: Result<JobSearchOutput, string>)
    requires ValidDay(now)
    ensures AllWhitespace(input.category) ==> r == Success(JobSearchOutput(JobSearchService.MissingCategoryMessage))
    ensures r.Success? ==> r.value.toolResult != []
  {
    match JobSearchService.SearchSpec(input.category, EffectiveDate(input.date), now, site)
    case Failure(e) => Failure(e)
    case Success(text) => Success(JobSearchOutput(text))
  }

  /** Leaving the date out, giving it empty, or giving "today" all search
      the current day. */
  lemma MissingDateIsToday(category: string, now: Day, site: JobSearchService.Site)
    requires ValidDay(now)
    ensures Call(JobSearchInput(category, None), now, site) == Call(JobSearchInput(category, Some("")), now, site)
    ensures Call(JobSearchInput(category, None), now, site) == Call(JobSearchInput(category, Some("today")), now, site)
  {
  }

  /** The search sees the category as given: a blank category gets the
      search's missing-category answer, and surrounding whitespace in a
      category changes nothing. */
  lemma CategoryPassedThrough(input: JobSearchInput, now: Day, site: JobSearchService.Site)
    requires ValidDay(now)
    ensures Call(input, now, site) == Call(input.(category := Trim(input.category)), now, site)
    ensures Call(input, now, site) == Success(JobSearchOutput(JobSearchService.MissingCategoryMessage))
            <==> AllWhitespace(input.category)
  {
    JobSearchService.SearchCategoryTrimmed(input.category, EffectiveDate(input.date), now, site);
  }

  /** Reading the tool's arguments out of a call's string arguments, as the
      tool's decoder does: the required parameter must be present, the
      optional one may be. */
  function DecodeInput(arguments: map<string, string>): (r: Option<JobSearchInput>) {
    if "category" in arguments then
      Some(JobSearchInput(arguments["category"], if "date" in arguments then Some(arguments["date"]) else None))
    else None
  }

  /** The string arguments that carry an input. */
  function EncodeInput(input: JobSearchInput): (arguments: map<string, string>) {
    if input.date.Some? then map["category" := input.category, "date" := input.date.value]
    else map["category" := input.category]
  }

  /** Encoding and decoding are inverse, and decoding succeeds exactly when
      every required parameter of the schema is among the arguments. */
  lemma DecodeEncode(input: JobSearchInput, arguments: map<string, string>)
    ensures DecodeInput(EncodeInput(input)) == Some(input)
    ensures DecodeInput(arguments).Some? <==>
            forall p :: p in Schema.parameters && p.presence == Required ==> p.name in arguments
  {
    assert Schema.parameters[0] in Schema.parameters;
  }

  /** The error of a call without the required argument; the decoder's own
      wording is not part of this model. */
  const MissingArgument: string := "missing required argument 'category'"

  /** The tool as the chat runs it: the call's arguments are decoded and
      the closure's output is the tool message's text. A call without a
      category fails without a search; a tool message is never empty. */
  function Execute(call: ToolCall, now: Day, site: JobSearchService.Site): (r: Result<string, string>)
    requires ValidDay(now)
    ensures "category" !in call.arguments ==> r == Failure(MissingArgument)
    ensures r.Success? ==> r.value != []
  {
    match DecodeInput(call.arguments)
    case None => Failure(MissingArgument)
    case Some(input) =>
      match Call(input, now, site)
      case Failure(e) => Failure(e)
      case Success(output) => Success(output.toolResult)
  }

  /** A call carrying an input runs the search on it: the tool message is
      the search's report, and a failed search fails the tool. */
  lemma ExecuteSearches(input: JobSearchInput, name: string, now: Day, site: JobSearchService.Site)
    requires ValidDay(now)
    ensures Execute(ToolCall(name, EncodeInput(input)), now, site)
            == JobSearchService.SearchSpec(input.category, EffectiveDate(input.date), now, site)
  {
    DecodeEncode(input, EncodeInput(input));
  }
}
