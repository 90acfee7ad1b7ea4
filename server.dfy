/**
 * The two MCP handlers of the server: the `fetch-url` tool, which turns a fetch
 * outcome into a text block (flagged as an error on failure, never thrown), and
 * the `fetch-template` resource, which returns markdown content or rethrows
 * with a fixed prefix.
 */
module Server {
  import opened Common
  import opened Renderer
  import opened Fetcher

  const ToolName := "fetch-url"
  const TemplateUri := "fetch://{url}"
  const MarkdownMime := "text/markdown"
  const ResourceErrorPrefix := "Error fetching URL: "
  const InvalidUrl := "Invalid URL"

  /** `FetchUrlArgs`, as the tool's input schema delivers them. */
  datatype ToolArgs = ToolArgs(url: string, timeout: Option<int>, waitForSelector: Option<string>, includeImages: Option<bool>)

  /** What the input schema guarantees before the handler runs: a timeout, when
      given, is a positive integer. */
  predicate ValidToolArgs(args: ToolArgs) {
    args.timeout.Some? ==> args.timeout.value > 0
  }

  /** A `{ type: "text", text }` content block. */
  datatype TextBlock = TextBlock(text: string)

  /** A tool result: its content blocks and the `isError` flag (absent means false). */
  datatype ToolResponse = ToolResponse(content: seq<TextBlock>, isError: bool)

  /** One entry of a resource read result. */
  datatype ResourceContent = ResourceContent(uri: string, text: string, mimeType: string)

  /** A resource read result. */
  datatype ResourceResponse = ResourceResponse(contents: seq<ResourceContent>)

  /** The text both handlers return for a fetched page: a level-one heading with
      the title, a blank line, then the markdown. */
  function PageText(result: FetchResult): (text: string)
    ensures StartsWith(text, "# ") && |result.markdown| <= |text|
    ensures text[|text| - |result.markdown|..] == result.markdown
  {
    "# " + result.title + "\n\n" + result.markdown
  }

  /** The options the tool passes on: the three schema fields, and no user agent. */
  function ToolOptions(args: ToolArgs): (o: FetchOptions)
    ensures o.timeout == args.timeout && o.waitForSelector == args.waitForSelector
    ensures o.includeImages == args.includeImages && o.userAgent.None?
  {
    FetchOptions(args.timeout, args.waitForSelector, args.includeImages, None)
  }

  /** The tool's fetch runs with the fixed user agent, a positive timeout (the
      caller's or the default), and the caller's selector and image choice. */
  lemma ToolSettings(args: ToolArgs)
    requires ValidToolArgs(args)
    ensures var s := ResolveOptions(ToolOptions(args));
      && s.userAgent == DefaultUserAgent
      && s.timeout > 0
      && (args.timeout.Some? ==> s.timeout == args.timeout.value)
      && s.waitForSelector == args.waitForSelector
      && s.includeImages == (args.includeImages == Some(true))
  {
  }

  /** The try/catch of the tool handler: success gives the page text, a failure
      gives the error text with the error flag; either way exactly one block. */
  function ShapeToolResponse(url: string, outcome: Result<FetchResult>): (resp: ToolResponse)
    ensures |resp.content| == 1
    ensures resp.isError <==> outcome.Err?
    ensures outcome.Ok? ==> resp.content[0].text == PageText(outcome.value)
    ensures outcome.Err? ==> resp.content[0].text == "Error fetching " + url + ": " + outcome.error
  {
    match outcome
    case Ok(result) => ToolResponse([TextBlock(PageText(result))], false)
    case Err(message) => ToolResponse([TextBlock("Error fetching " + url + ": " + message)], true)
  }

  /** The `fetch-url` tool handler. It always returns a response; a failed fetch is
      reported inside it, flagged as an error. */
  function FetchUrlTool(args: ToolArgs, env: PageEnv, turndown: Turndown): (resp: ToolResponse)
    ensures var outcome := FetchOutcome(args.url, ToolOptions(args), env, turndown);
      && |resp.content| == 1
      && (resp.isError <==> outcome.Err?)
      && (outcome.Ok? ==> resp.content[0].text == "# " + outcome.value.title + "\n\n" + outcome.value.markdown)
      && (outcome.Err? ==> resp.content[0].text == "Error fetching " + args.url + ": " + outcome.error)
  {
    ShapeToolResponse(args.url, FetchOutcome(args.url, ToolOptions(args), env, turndown))
  }

  /** The `try` block of the resource handler, before its catch clause adds the prefix. */
  function ReadResourceBody(href: string, encodedUrl: string, decode: string -> Result<string>, env: PageEnv, turndown: Turndown)
    : (r: Result<ResourceResponse>)
    ensures decode(encodedUrl).Err? ==> r == Err(decode(encodedUrl).error)
    ensures decode(encodedUrl) == Ok("") ==> r == Err(InvalidUrl)
    ensures r.Ok? ==> decode(encodedUrl).Ok? && decode(encodedUrl).value != "" &&
                      FetchOutcome(decode(encodedUrl).value, NoOptions, env, turndown).Ok?
    ensures (decode(encodedUrl).Ok? && decode(encodedUrl).value != "" &&
             FetchOutcome(decode(encodedUrl).value, NoOptions, env, turndown).Err?) ==>
      r == Err(FetchOutcome(decode(encodedUrl).value, NoOptions, env, turndown).error)
    ensures (decode(encodedUrl).Ok? && decode(encodedUrl).value != "" &&
             FetchOutcome(decode(encodedUrl).value, NoOptions, env, turndown).Ok? && decode(href).Err?) ==>
      r == Err(decode(href).error)
  {
    match decode(encodedUrl)
    case Err(e) => Err(e)
    case Ok(url) =>
      if url == "" then Err(InvalidUrl)
      else match FetchOutcome(url, NoOptions, env, turndown)
        case Err(e) => Err(e)
        case Ok(result) =>
          match decode(href)
          case Err(e) => Err(e)
          case Ok(uri) => Ok(ResourceResponse([ResourceContent(uri, PageText(result), MarkdownMime)]))
  }

  /** The `fetch-template` read handler for `href`, whose `{url}` variable is
      `encodedUrl`; `decode` is `decodeURIComponent`. Every failure is rethrown
      (an `Err`) with the fixed prefix, never returned as a response. */
  function ReadFetchResource(href: string, encodedUrl: string, decode: string -> Result<string>, env: PageEnv, turndown: Turndown)
    : (r: Result<ResourceResponse>)
    ensures r.Err? ==> StartsWith(r.error, ResourceErrorPrefix)
    ensures decode(encodedUrl) == Ok("") ==> r == Err("Error fetching URL: Invalid URL")
    ensures decode(encodedUrl).Err? ==> r == Err(ResourceErrorPrefix + decode(encodedUrl).error)
    ensures (decode(encodedUrl).Ok? && decode(encodedUrl).value != "" &&
             FetchOutcome(decode(encodedUrl).value, NoOptions, env, turndown).Err?) ==>
      r == Err(ResourceErrorPrefix + FetchOutcome(decode(encodedUrl).value, NoOptions, env, turndown).error)
    ensures r.Ok? <==>
      && decode(encodedUrl).Ok? && decode(encodedUrl).value != ""
      && FetchOutcome(decode(encodedUrl).value, NoOptions, env, turndown).Ok?
      && decode(href).Ok?
    ensures r.Ok? ==>
      r.value.contents == [ResourceContent(decode(href).value,
                                           PageText(FetchOutcome(decode(encodedUrl).value, NoOptions, env, turndown).value),
                                           "text/markdown")]
  {
    assert ResourceErrorPrefix + InvalidUrl == "Error fetching URL: Invalid URL";
    match ReadResourceBody(href, encodedUrl, decode, env, turndown)
    case Ok(response) => Ok(response)
    case Err(e) => Err(ResourceErrorPrefix + e)
  }

  /** The browser events of a resource read: none unless the decoded URL is
      non-empty, otherwise those of a fetch with default options. */
  function ResourceTrace(encodedUrl: string, decode: string -> Result<string>, env: PageEnv): seq<Event> {
    match decode(encodedUrl)
    case Err(_) => []
    case Ok(url) => if url == "" then [] else FetchTrace(url, NoOptions, env)
  }

  /** An empty decoded URL is rejected before any browser is launched, whatever the
      browser would have done; a non-empty one is fetched with the default timeout,
      no selector wait, no images and the fixed user agent. */
  lemma ResourceFetchDefaults(href: string, encodedUrl: string, decode: string -> Result<string>, env: PageEnv, turndown: Turndown)
    ensures decode(encodedUrl) == Ok("") ==>
      ResourceTrace(encodedUrl, decode, env) == [] &&
      ReadFetchResource(href, encodedUrl, decode, env, turndown) == Err("Error fetching URL: Invalid URL")
    ensures ResolveOptions(NoOptions) == Settings(30000, None, false, DefaultUserAgent)
    ensures (decode(encodedUrl).Ok? && decode(encodedUrl).value != "" && env.launchError.None?) ==>
      ResourceTrace(encodedUrl, decode, env) ==
        SessionTrace(decode(encodedUrl).value, Settings(30000, None, false, DefaultUserAgent), env.fails)
  {
  }

  /** The template lists no resources. */
  function ListResources(): (resources: seq<ResourceContent>)
    ensures |resources| == 0
  {
    []
  }
}
