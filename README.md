# mcp-fetch in Dafny

mcp-fetch is an MCP server that renders a web page in a headless browser (Puppeteer). It
picks the main content of the page, collects a few meta tags, and turns the content HTML
into Markdown (Turndown). This project models the deterministic decisions around those
libraries and proves what the code promises about them:

- `common.dfy` (`Common`): optional values, the outcome of a call that may throw, and
  JavaScript truthiness and `||` on strings.
- `dom.dfy` (`Dom`): the rendered document as the in-page scripts see it: elements with
  tag, id, classes and innerHTML, the `<meta>` tags, and a body that may be null.
- `metadata.dfy` (`Metadata`): the in-page meta-tag scan, a loop where the last tag wins.
  Then the allow-list projection onto `description`, `author` and `ogTitle`, where
  `og:description` wins over `description`.
- `locator.dfy` (`Locator`): `querySelector` and the `main || article || #content ||
  .content || body` chain.
- `converter.dfy` (`Converter`): the Turndown configuration, meaning the fixed style record
  and the set of removed elements.
- `renderer.dfy` (`Renderer`): an abstract browser, as a class with a `closed` flag and a
  trace of every call made on it. A straight-line sequence of awaited calls stops at the
  first call that throws.
- `fetcher.dfy` (`Fetcher`): option defaulting, `fetchUrl` as imperative code over the
  browser with its `finally` close, and `fetchMultipleUrls` as a loop that fills a map.
- `server.dfy` (`Server`): the `fetch-url` tool handler and the `fetch-template` resource
  handler, as functions from a fetch outcome to a response.
- `cli.dfy` (`Cli`): how `main` picks the transport, port and URI prefix from argv and the
  environment. This includes `find`, `split("=")[1]` and `parseInt`.
- `sse.dfy` (`Sse`): URI-prefix normalisation and the three endpoint paths of the SSE server.

Things outside the model become parameters:
- `PageEnv` describes one browser: whether launching fails, which page call throws which
  error, the page title and the document.
- `Turndown` is the converter, as a function from a configuration and HTML to Markdown or
  an error.
- The resource handler takes `decodeURIComponent` as a function parameter.
- `fetchMultipleUrls` takes one `PageEnv` per position.

In these details the model follows the code as written:
- A tag's key is `name || property`, so an empty `name` also falls back to `property`.
- A selector-wait failure carries whatever error the wait throws. There is no separate
  error kind.
- When no candidate element is found and the body is null, the evaluation throws a
  TypeError. It does not fall back to anything.
- `fetchUrl` itself accepts any timeout. Only the tool's input schema requires a positive one.
- The resource handler rejects only an empty decoded URL before fetching. Nothing on the
  resource path checks that the URL is well formed. Only the tool path relies on its input
  schema for that, and the schema is not modelled.

## Model

| member | source | states |
|---|---|---|
| `Common.Or` | src/fetcher.ts:96 | `a \|\| b` on optional strings gives the first operand when it is a non-empty string, otherwise the second |
| `Metadata.KeyOf` | src/fetcher.ts:96 | a tag is recorded under its `name` when that is non-empty, otherwise under its `property` |
| `Metadata.Recorded` | src/fetcher.ts:99 | a tag is recorded iff it has a non-empty `name` or `property` and non-empty content |
| `Metadata.RawMeta` | src/fetcher.ts:95-101 | every key and value in the raw record is non-empty, because tags with an empty key or content are skipped |
| `Metadata.RawMetaLastWins` | src/fetcher.ts:95-101 | a key is in the raw record iff some tag has that key (`name`, else `property`) and non-empty content; its value is the content of the last such tag |
| `Metadata.ScanMetaTags` | src/fetcher.ts:91-105 | the `forEach` loop builds the raw record: exactly the recorded keys, each with the last recorded content |
| `Metadata.FirstPresent` | src/fetcher.ts:108-111 | gives nothing iff no listed key has a non-empty value; otherwise the value of the first listed key that has one |
| `Metadata.FieldValues` | src/fetcher.ts:108-111 | `description` comes from `og:description` when that is non-empty, else from `description`; `author` comes from `author` and `ogTitle` from `og:title` |
| `Metadata.ProjectionFields` | src/fetcher.ts:107-113 | the projected record has only keys from {description, author, ogTitle}; each is present iff one of its sources is; `og:description` overrides `description` |
| `Metadata.Projection` | src/fetcher.ts:107-113 | reference definition of the projection: each canonical field that has a value, and no other key; `FieldValues` and `ProjectionFields` state what it holds |
| `Metadata.ProjectMetadata` | src/fetcher.ts:107-113 | the four conditional assignments, in source order, give `Projection` of the raw record |
| `Locator.FirstMatch` | src/fetcher.ts:168-171 | gives nothing iff no element matches; otherwise the position of a matching element with no match before it |
| `Locator.QuerySelector` | src/fetcher.ts:168-171 | null iff no element matches; otherwise the first matching element in document order |
| `Locator.OrElse` | src/fetcher.ts:168-172 | `a \|\| b` on element references: the first when it is not null, otherwise the second; null iff both are |
| `Locator.LocateMainContent` | src/fetcher.ts:166-175 | the first `main` decides; failing that the first `article`, then `#content`, then `.content`, then the body's innerHTML; with a null body, reading innerHTML throws a TypeError |
| `Locator.LocateBy` | src/fetcher.ts:168-174 | reference definition of the heuristic as a first-match rule: the first selector of a list that matches anything gives its first element's innerHTML, otherwise the body's, or a TypeError for a null body; `LocateIsPriorityRule` ties it to the chain |
| `Locator.LocateIsPriorityRule` | src/fetcher.ts:168-172 | the `\|\|` chain equals a general first-match rule over the list [main, article, #content, .content] with the body as fallback |
| `Locator.MainDecides` | src/fetcher.ts:168-174 | when a `main` exists, two documents with the same `main` elements at the same positions give the same content, whatever their articles and content elements are |
| `Converter.ConfigureTurndown` | src/fetcher.ts:64-82 | style is atx / `---` / `-` / fenced / `*`; script, style, noscript and iframe are always removed; `img` is removed iff images are not wanted; nothing else is removed |
| `Converter.ImagesOnlyDifference` | src/fetcher.ts:74-79 | the two configurations have the same options and differ only in `img` |
| `Renderer.Browser.Launch` | src/fetcher.ts:135-138 | a successful launch gives an open browser whose trace is just the launch |
| `Renderer.Browser.Perform` | src/fetcher.ts:142-175 | one awaited page call: it is appended to the trace, the browser stays open, and it throws exactly the error the environment assigns to it |
| `Renderer.Browser.Close` | src/fetcher.ts:189-191 | closing appends the close to the trace and marks the browser closed |
| `Renderer.FirstFailing` | src/fetcher.ts:140-175 | the position in a sequence of awaits where the first call throws, with every earlier call succeeding |
| `Renderer.Attempted` | src/fetcher.ts:140-175 | reference definition of the calls a sequence of awaits makes: the planned calls up to and including the first that throws; `AttemptedIsPrefix` states its properties |
| `Renderer.FirstFailure` | src/fetcher.ts:140-175 | reference definition of the error that ends a sequence of awaits early, if any: the error of the call at `FirstFailing`; `AttemptedIsPrefix` and `FirstFailingAt` state its properties |
| `Renderer.FirstFailingAt` | src/fetcher.ts:140-175 | a call that throws after a run of successes is the first failing one; with no throw at all, the first failing position is the end of the plan |
| `Renderer.AttemptedIsPrefix` | src/fetcher.ts:140-175 | the calls actually made are a prefix of the planned ones; with no failure, all of them; otherwise the last call made is the one that threw, with the error that ends the sequence |
| `Renderer.Session` | src/fetcher.ts:135-191 | reference definition of the whole trace of a launched browser: the launch, the attempted calls, then the close from `finally`; `SessionFollowsPlan` and `SessionPageCalls` state its shape |
| `Renderer.SessionFollowsPlan` | src/fetcher.ts:135-191 | a session starts with the launch and ends with one close; each event in between is the planned call at that position; no call comes after the first one that throws |
| `Renderer.SessionPageCalls` | src/fetcher.ts:140-191 | when every planned call is a page call, every event between the launch and the close is a page call |
| `Fetcher.ResolveOptions` | src/fetcher.ts:127-132 | a missing timeout becomes 30000, a missing `includeImages` becomes false, a missing user agent becomes the fixed Chrome 122 string; supplied values, `0` and `""` included, are kept |
| `Fetcher.Plan` | src/fetcher.ts:142-175 | reference definition of the page calls of one fetch, in the order the code awaits them; `PlanShape` states them position by position |
| `Fetcher.PlanShape` | src/fetcher.ts:142-175 | the page calls in order: newPage, setViewport 1280x800, setUserAgent, goto, the selector wait only when `waitForSelector` is non-empty, title, metadata evaluation, content evaluation |
| `Fetcher.RenderOutcome` | src/fetcher.ts:140-175 | reference definition of what the browser part of the `try` block produces: the first planned call's error, else the locator's error, else title, `Projection(RawMeta(...))` and the content HTML |
| `Fetcher.SessionOutcome` | src/fetcher.ts:140-188 | reference definition of what one launched session returns: `RenderOutcome`'s error, else the converter's error, else the assembled result; `SessionSucceeds` and `StoppedAt` state when each happens |
| `Fetcher.FetchOutcome` | src/fetcher.ts:123-192 | reference definition of what `fetchUrl` resolves to or rejects with: the launch error, else `SessionOutcome` with the resolved options; `LaunchDecides` states it |
| `Fetcher.FetchTrace` | src/fetcher.ts:135-191 | reference definition of every browser event of `fetchUrl`: none when the launch fails, else launch, the attempted page calls and the close; `BrowserReleased` and `SessionFollowsPlan` state its shape |
| `Fetcher.SessionTrace` | src/fetcher.ts:135-191 | reference definition of the trace of a fetch whose launch succeeded: `Session` of `Plan` with the resolved settings; `BrowserReleased`, `SetupBeforeNavigation`, `SelectorWaitPlaced` and `SelectorWaitIff` state what it holds |
| `Fetcher.BrowserReleased` | src/fetcher.ts:135-191 | once launched, the browser is closed exactly once, as the last event, on every path; only page calls happen in between |
| `Fetcher.SetupBeforeNavigation` | src/fetcher.ts:145-152 | the only navigation is to the URL verbatim with the resolved timeout, and viewport 1280x800 and the user agent were set before it, in that order |
| `Fetcher.SelectorWaitPlaced` | src/fetcher.ts:155-157 | a selector wait is for the given selector with the resolved timeout, comes right after the navigation, and happens only when `waitForSelector` is non-empty |
| `Fetcher.SelectorWaitIff` | src/fetcher.ts:155-157 | the selector wait happens iff `waitForSelector` is non-empty and the page setup and navigation succeeded |
| `Fetcher.StoppedAt` | src/fetcher.ts:140-191 | a call that throws after a run of successes ends the fetch with its error; the browser is then closed with no later call |
| `Fetcher.NavigationFailure` | src/fetcher.ts:149-191 | a failed `goto` fails the fetch with its error; the trace is launch, setup, goto, then close |
| `Fetcher.SelectorWaitFailure` | src/fetcher.ts:155-191 | a selector that never appears fails the fetch with the wait's error, before the title or any evaluation; the browser is still closed |
| `Fetcher.SessionSucceeds` | src/fetcher.ts:160-188 | a fetch succeeds iff no page call throws, the locator finds content and the conversion succeeds; the result has the URL verbatim, the page title, the projected metadata and the converter's Markdown, and every planned call was made |
| `Fetcher.LaunchDecides` | src/fetcher.ts:127-140 | a failed launch rejects with its error and makes no browser call; otherwise the fetch is a session with the resolved options |
| `Fetcher.Attempt` | src/fetcher.ts:142-175 | one awaited page call after earlier successes: it is traced, the browser stays open, and its error, if any, is the first failure of the plan, with the trace then holding exactly the attempted calls |
| `Fetcher.ExtractMetadata` | src/fetcher.ts:87-114 | the metadata evaluation either throws, with every later call skipped, or returns the projection of the scanned meta tags |
| `Fetcher.OpenAndNavigate` | src/fetcher.ts:142-157 | opening, setup, navigation and the optional wait either make the whole prefix of calls or stop at the first one that throws, with its error |
| `Fetcher.EvaluatePage` | src/fetcher.ts:159-175 | title, metadata and content evaluation: the first error thrown, else the locator's error, else the title, metadata and content HTML |
| `Fetcher.RenderPage` | src/fetcher.ts:140-175 | the browser part of the `try` block makes the calls up to the first failure and returns what `RenderOutcome` says |
| `Fetcher.RunSession` | src/fetcher.ts:140-188 | the whole `try` block, conversion included, returns `SessionOutcome` of the session outcome |
| `Fetcher.FetchUrl` | src/fetcher.ts:123-192 | the result and the browser trace are `FetchOutcome` and `FetchTrace`; the close in `finally` runs on every path after a launch, and `BrowserReleased` states of that trace that the close comes exactly once, last |
| `Fetcher.BatchResults` | src/fetcher.ts:205-218 | reference definition of the batch map after the first n fetches in input order: a success sets its URL's entry, a failure leaves the map as it was; `BatchKeys`, `BatchValues` and `BatchSingle` state what it holds |
| `Fetcher.BatchKeys` | src/fetcher.ts:205-218 | the batch map's keys are exactly the URLs that have a successful fetch |
| `Fetcher.BatchValues` | src/fetcher.ts:208-211 | every entry of the batch map is the result of a successful fetch of its URL |
| `Fetcher.BatchSingle` | src/fetcher.ts:208-211 | a URL that occurs once maps to the result of its fetch when that fetch succeeded |
| `Fetcher.BatchMeaning` | src/fetcher.ts:205-218 | the three facts above, about the complete batch map |
| `Fetcher.FetchInto` | src/fetcher.ts:208-215 | the per-URL callback sets the URL's entry on success and leaves the map unchanged on failure, without throwing |
| `Fetcher.FetchMultipleUrls` | src/fetcher.ts:201-218 | never fails; its keys are exactly the URLs with a successful fetch, each entry is one such fetch's result, and a URL given once maps to its own result |
| `Server.PageText` | src/server.ts:48 | the page text starts with a `# ` heading and ends with the Markdown |
| `Server.ToolOptions` | src/server.ts:37-41 | the tool forwards `timeout`, `waitForSelector` and `includeImages` unchanged and sets no user agent |
| `Server.ToolSettings` | src/server.ts:30-41 | with schema-valid arguments the tool's fetch uses the fixed user agent and a positive timeout (the caller's, or 30000 when none is given), plus the caller's selector and image choice |
| `Server.ShapeToolResponse` | src/server.ts:43-58 | exactly one text block; the error flag is set iff the fetch failed; the text is the page text or `Error fetching <url>: <message>` |
| `Server.FetchUrlTool` | src/server.ts:35-60 | the tool never throws: success gives `# <title>` + blank line + Markdown without the error flag; failure gives `Error fetching <url>: <message>` with it |
| `Server.ReadResourceBody` | src/server.ts:78-96 | the `try` body before the prefix is added: a decoding error or an empty decoded URL fails before the fetch, a failed fetch passes its error on, and decoding the href can still throw after a successful fetch |
| `Server.ReadFetchResource` | src/server.ts:77-100 | every failure is rethrown with the prefix `Error fetching URL: `, and an empty decoded URL gives `Error fetching URL: Invalid URL`; success gives one `text/markdown` entry whose URI is the decoded href and whose text is the page text |
| `Server.ResourceTrace` | src/server.ts:80-88 | reference definition of the browser events of a resource read: none when decoding fails or the decoded URL is empty, otherwise those of `fetchUrl` with default options; `ResourceFetchDefaults` states its properties |
| `Server.ResourceFetchDefaults` | src/server.ts:80-88 | an empty decoded URL makes no browser call; a non-empty one is fetched with timeout 30000, no selector wait, no images and the fixed user agent |
| `Server.ListResources` | src/server.ts:64-71 | the template lists no resources |
| `Cli.FindIndex` | src/index.ts:14 | the position of the first argument with the prefix, with none before it, or the length when there is none |
| `Cli.FindFirst` | src/index.ts:14-20 | `argv.find(startsWith)`: undefined iff no argument has the prefix; otherwise the first one that does |
| `Cli.Split` | src/index.ts:17 | at least one piece; more than one iff the separator occurs; no piece holds it; the first piece is the text before the first separator |
| `Cli.JoinSplit` | src/index.ts:17 | joining the pieces of a split gives back the string |
| `Cli.SplitJoin` | src/index.ts:17 | splitting a join of separator-free pieces gives back the pieces |
| `Cli.SplitAfter` | src/index.ts:17 | a separator-free piece followed by the separator splits off as the first piece |
| `Cli.FlagValue` | src/index.ts:17 | `split("=")[1]` holds no `=` |
| `Cli.FlagValueOf` | src/index.ts:23 | for `name=rest`, the value is the longest prefix of `rest` without `=` |
| `Cli.SecondEqualsDropped` | src/index.ts:23 | `--prefix=a=b` gives `a`: text from the second `=` on is dropped |
| `Cli.EmptyFlagValue` | src/index.ts:23 | a flag ending in its `=` has the empty value |
| `Cli.TrimStart` | src/index.ts:16-17 | `parseInt` first skips exactly the leading ECMAScript white space and line terminators |
| `Cli.DigitPrefix` | src/index.ts:16-17 | the longest run of decimal digits at the start |
| `Cli.ParseInt` | src/index.ts:16-17 | `parseInt(s, 10)` is NaN iff no digit follows the white space and optional sign |
| `Cli.ParseIntOfDigits` | src/index.ts:16-17 | a run of digits followed by a non-digit or nothing parses to the number the digits denote |
| `Cli.ParseIntValue` | src/index.ts:16-17 | white space, an optional `-` or `+`, a run of digits and a tail that does not start with a digit parse to the digits' value, negated after `-` |
| `Cli.ParseIntOfNatToString` | src/index.ts:16-17 | a decimal port number reads back as itself, whatever non-digit text follows it |
| `Cli.EnvPort` | src/index.ts:16 | an unset or empty `PORT` gives 3000; otherwise `parseInt` of its value |
| `Cli.SelectPort` | src/index.ts:14-17 | the first `--port=` argument decides the port through `parseInt`; with none, a non-empty `PORT` does; otherwise 3000 |
| `Cli.SelectPrefix` | src/index.ts:20-23 | the first `--prefix=` argument decides the prefix; with none, a non-empty `URI_PREFIX`; otherwise "" |
| `Cli.SelectLaunchConfig` | src/index.ts:11-23 | SSE iff some argument is exactly `--sse`; the environment or fallback port and prefix apply when no flag argument is given |
| `Cli.FirstFlagDecides` | src/index.ts:14-23 | the first `--port=` or `--prefix=` argument gives the port or prefix whatever the environment holds |
| `Cli.LaterFlagsIgnored` | src/index.ts:14-20 | arguments after the first `--port=` or `--prefix=` change neither choice |
| `Cli.BarePrefixOverridesEnv` | src/index.ts:22-23 | a bare `--prefix=` yields "" even when `URI_PREFIX` is set |
| `Sse.StripTrailingSlashes` | src/sse.ts:20 | removes exactly the final run of slashes: what is left is a prefix that does not end in `/`, and everything removed is `/` |
| `Sse.NormalizePrefix` | src/sse.ts:19-21 | empty stays empty; otherwise the result is "" or starts with `/` and never ends with `/`, and is the prefix, with one `/` put in front when it has none, minus only trailing slashes |
| `Sse.NormalizeFixesNormal` | src/sse.ts:19-21 | a prefix that starts with `/` and does not end with `/` comes out unchanged |
| `Sse.NormalizeIdempotent` | src/sse.ts:19-21 | normalising twice is normalising once |
| `Sse.NormalizeExamples` | src/sse.ts:19-21 | `api/` gives `/api`; `/` and `///` give "" |
| `Sse.OnlySlashesVanish` | src/sse.ts:20 | a prefix made only of slashes, of any length, normalises to "" |
| `Sse.EndpointPaths` | src/sse.ts:24-26 | the routes are prefix + `/sse`, prefix + `/message` and prefix + `/info`, and they are pairwise distinct |
| `Sse.EndpointsWellFormed` | src/sse.ts:19-26 | every route starts with `/`, and prefix and route name meet in a single slash |

## Left out

- Puppeteer internals are not modelled: launch flags, headless mode, `networkidle2`, timing and how timeouts expire. Each browser call succeeds or throws as the `PageEnv` parameter says.
- `browser.close()` is assumed not to throw. A throwing close would replace the fetch's own error.
- The Markdown conversion itself is not modelled. Turndown is a parameter (`Turndown`), and only the configuration handed to it is specified.
- Locator.LocateMainContent: the TypeError for a null body carries a fixed message (`NullBodyError`); the real text comes from the browser engine and may differ between versions.
- Real DOM and CSS matching are not modelled: case-insensitive tag names, selector parsing, and attribute values with `getAttribute` edge cases. The document is an abstract element sequence.
- Concurrency in `fetchMultipleUrls` is not modelled. `Promise.all` is a sequential loop in input order, and the absence of a concurrency cap is out of scope.
- Fetcher.FetchMultipleUrls: the sequential model fixes the entry of a URL given more than once to its last successful fetch in input order. The source does not promise this: under `Promise.all` the fetch that finishes last wins. The other clauses (the keys, each entry being some successful fetch of its URL, a URL given once mapping to its own result) hold for any completion order.
- Logging (`console.error`) is not modelled.
- The MCP SDK is not modelled: tool and resource registration, the server singleton, the transports, `server.connect`/`close`, Express routing and the info endpoint's JSON body. Neither are the signal handlers, `process.exit` or the mutable `transport` variable of the SSE server.
- The zod schema is not modelled. Only its guarantee of a positive timeout is stated, as `ValidToolArgs`. URL syntax checking is not modelled.
- `decodeURIComponent` is an abstract function parameter, so only its success or error is modelled.
- `variables.url` given as an array of strings (cast to a string) is not modelled; the resource always receives one string.
- Errors are modelled as their message strings. Non-`Error` thrown values, which `String(error)` converts, are not distinguished.
- Cli.ParseInt: gives the exact integer, while JavaScript rounds very long digit strings to a double; leading `0x` is not special with radix 10, which the model follows.
- The default parameters of `startSSEServer` are not modelled, because `main` always passes both arguments.
- Special JavaScript object keys such as `__proto__` in the raw metadata record are treated as ordinary keys.
