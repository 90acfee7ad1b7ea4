/**
 * The fetch orchestrator: option defaulting, the step sequence of `fetchUrl`
 * over an abstract browser (closed on every path), and `fetchMultipleUrls`.
 */
module Fetcher {
  import opened Common
  import opened Dom
  import opened Metadata
  import opened Locator
  import opened Converter
  import opened Renderer

  const DefaultTimeout := 30000
  const DefaultUserAgent := "Mozilla/5.0 (Macintosh; Intel Mac OS X 10_15_7) AppleWebKit/537.36 (KHTML, like Gecko) Chrome/122.0.0.0 Safari/537.36"
  const ViewportWidth := 1280
  const ViewportHeight := 800

  /** `FetchOptions`: every field may be left undefined. `None` here means
      `undefined` only: a destructuring default does not replace a supplied `null`,
      and such a `null` is not modelled. */
  datatype FetchOptions = FetchOptions(
    timeout: Option<int>,
    waitForSelector: Option<string>,
    includeImages: Option<bool>,
    userAgent: Option<string>)

  /** The `{}` default of the `options` parameter. */
  const NoOptions := FetchOptions(None, None, None, None)

  /** The options after destructuring with defaults. */
  datatype Settings = Settings(timeout: int, waitForSelector: Option<string>, includeImages: bool, userAgent: string)

  /** `FetchResult`. */
  datatype FetchResult = FetchResult(url: string, markdown: string, title: string, metadata: map<string, string>)

  /** `turndownService.turndown(html)` for a configured service: the Markdown, or the error it throws. */
  type Turndown = (TurndownConfig, string) -> Result<string>

  /** Destructuring defaults: a missing field takes its default, a supplied one is kept as it is
      (a default applies only to `undefined`, so `0` or `""` are kept). */
  function ResolveOptions(o: FetchOptions): (s: Settings)
    ensures s.timeout == if o.timeout.Some? then o.timeout.value else DefaultTimeout
    ensures s.waitForSelector == o.waitForSelector
    ensures s.includeImages == if o.includeImages.Some? then o.includeImages.value else false
    ensures s.userAgent == if o.userAgent.Some? then o.userAgent.value else DefaultUserAgent
  {
    Settings(
      if o.timeout.None? then DefaultTimeout else o.timeout.value,
      o.waitForSelector,
      if o.includeImages.None? then false else o.includeImages.value,
      if o.userAgent.None? then DefaultUserAgent else o.userAgent.value)
  }

  /** The selector wait runs exactly when `waitForSelector` is truthy. */
  predicate WaitsForSelector(s: Settings) {
    Truthy(s.waitForSelector)
  }

  /** Every page call of a fetch in the order the code awaits them. */
  function Plan(url: string, s: Settings): seq<Event> {
    if WaitsForSelector(s) then
      [NewPage, SetViewport(ViewportWidth, ViewportHeight), SetUserAgent(s.userAgent), Goto(url, s.timeout),
       WaitForSelector(s.waitForSelector.value, s.timeout), ReadTitle, EvaluateMetadata, EvaluateContent]
    else
      [NewPage, SetViewport(ViewportWidth, ViewportHeight), SetUserAgent(s.userAgent), Goto(url, s.timeout),
       ReadTitle, EvaluateMetadata, EvaluateContent]
  }

  /** The shape of the plan, position by position. */
  lemma PlanShape(url: string, s: Settings)
    ensures var p := Plan(url, s);
      var w := if WaitsForSelector(s) then 1 else 0;
      && |p| == 7 + w
      && p[0] == NewPage && p[1] == SetViewport(ViewportWidth, ViewportHeight)
      && p[2] == SetUserAgent(s.userAgent) && p[3] == Goto(url, s.timeout)
      && (WaitsForSelector(s) ==> p[4] == WaitForSelector(s.waitForSelector.value, s.timeout))
      && p[4 + w] == ReadTitle && p[5 + w] == EvaluateMetadata && p[6 + w] == EvaluateContent
  {
  }

  /** What the browser hands back from a rendered page. */
  datatype RenderedPage = RenderedPage(title: string, metadata: map<string, string>, html: string)

  /** What the browser steps of one launched session produce: the first thrown
      error, else the locator's error, else title, metadata and content HTML. */
  function RenderOutcome(url: string, s: Settings, env: PageEnv): Result<RenderedPage> {
    var failure := FirstFailure(Plan(url, s), env.fails);
    if failure.Some? then Err(failure.value)
    else match LocateMainContent(env.document)
      case Err(e) => Err(e)
      case Ok(html) => Ok(RenderedPage(env.title, Projection(RawMeta(env.document.metaTags)), html))
  }

  /** What one launched session returns: the rendering error, else the
      converter's error, else the assembled result. */
  function SessionOutcome(url: string, s: Settings, env: PageEnv, turndown: Turndown): Result<FetchResult> {
    match RenderOutcome(url, s, env)
    case Err(e) => Err(e)
    case Ok(page) =>
      match turndown(ConfigureTurndown(s.includeImages), page.html)
      case Err(e) => Err(e)
      case Ok(markdown) => Ok(FetchResult(url, markdown, page.title, page.metadata))
  }

  /** What `fetchUrl(url, options)` resolves to, or the error it rejects with. */
  function FetchOutcome(url: string, options: FetchOptions, env: PageEnv, turndown: Turndown): Result<FetchResult> {
    if env.launchError.Some? then Err(env.launchError.value)
    else SessionOutcome(url, ResolveOptions(options), env, turndown)
  }

  /** Every browser event of `fetchUrl(url, options)`: none when the launch fails,
      otherwise the launch, the attempted page calls and the close. */
  function FetchTrace(url: string, options: FetchOptions, env: PageEnv): seq<Event> {
    if env.launchError.Some? then []
    else SessionTrace(url, ResolveOptions(options), env.fails)
  }

  /** Every browser event of a fetch whose launch succeeded, with resolved settings `s`. */
  function SessionTrace(url: string, s: Settings, fails: Event -> Option<string>): seq<Event> {
    Session(Plan(url, s), fails)
  }

  /** The four calls before the optional selector wait all succeed. */
  predicate NavigationSucceeds(url: string, s: Settings, fails: Event -> Option<string>) {
    && fails(NewPage).None?
    && fails(SetViewport(ViewportWidth, ViewportHeight)).None?
    && fails(SetUserAgent(s.userAgent)).None?
    && fails(Goto(url, s.timeout)).None?
  }

  /** Every planned call is a call on the page (neither the launch nor the close). */
  lemma PlanPageCalls(url: string, s: Settings)
    ensures forall j :: 0 <= j < |Plan(url, s)| ==> Plan(url, s)[j].IsPageCall()
  {
    PlanShape(url, s);
  }

  /** A launched browser is closed exactly once, as the last event: the trace is
      the launch, then page calls only, then the close. */
  lemma BrowserReleased(url: string, s: Settings, fails: Event -> Option<string>)
    ensures var t := SessionTrace(url, s, fails);
      && |t| >= 2 && t[0] == Launched && t[|t| - 1] == Closed
      && forall k :: 0 < k < |t| - 1 ==> t[k].IsPageCall()
  {
    PlanPageCalls(url, s);
    SessionFollowsPlan(Plan(url, s), fails);
    SessionPageCalls(Plan(url, s), fails);
  }

  /** Viewport and user agent are set, in that order, before the one navigation,
      which goes to the requested URL verbatim with the resolved timeout. */
  lemma SetupBeforeNavigation(url: string, s: Settings, fails: Event -> Option<string>)
    ensures var t := SessionTrace(url, s, fails);
      forall k :: 0 <= k < |t| && t[k].Goto? ==>
        k == 4 && t[k] == Goto(url, s.timeout) &&
        t[1] == NewPage && t[2] == SetViewport(1280, 800) && t[3] == SetUserAgent(s.userAgent)
  {
    PlanShape(url, s);
    SessionFollowsPlan(Plan(url, s), fails);
  }

  /** The selector wait, when it happens, waits for the given selector with the
      resolved timeout, right after the navigation. */
  lemma SelectorWaitPlaced(url: string, s: Settings, fails: Event -> Option<string>)
    ensures var t := SessionTrace(url, s, fails);
      forall k :: 0 <= k < |t| && t[k].WaitForSelector? ==>
        && k == 5 && WaitsForSelector(s)
        && t[k] == WaitForSelector(s.waitForSelector.value, s.timeout) && t[4] == Goto(url, s.timeout)
  {
    PlanShape(url, s);
    SessionFollowsPlan(Plan(url, s), fails);
  }

  /** The selector wait is attempted exactly when `waitForSelector` is non-empty and
      navigation succeeded. */
  lemma SelectorWaitIff(url: string, s: Settings, fails: Event -> Option<string>)
    ensures var t := SessionTrace(url, s, fails);
      (exists k :: 0 <= k < |t| && t[k].WaitForSelector?) <==> WaitsForSelector(s) && NavigationSucceeds(url, s, fails)
  {
    var plan := Plan(url, s);
    var t := SessionTrace(url, s, fails);
    PlanShape(url, s);
    SessionFollowsPlan(plan, fails);
    if WaitsForSelector(s) && NavigationSucceeds(url, s, fails) {
      assert FirstFailing(plan, fails) >= 4;
      assert t[5].WaitForSelector?;
    }
    if exists k :: 0 <= k < |t| && t[k].WaitForSelector? {
      SelectorWaitPlaced(url, s, fails);
      assert FirstFailing(plan, fails) >= 4;
    }
  }

  /** A planned call that throws after a run of successes ends the session with its
      error; the browser is then closed without making any later call. */
  lemma StoppedAt(url: string, s: Settings, env: PageEnv, turndown: Turndown, i: nat)
    requires var plan := Plan(url, s);
      && i < |plan| && env.fails(plan[i]).Some?
      && forall j :: 0 <= j < i ==> env.fails(plan[j]).None?
    ensures var plan := Plan(url, s);
      && SessionOutcome(url, s, env, turndown) == Err(env.fails(plan[i]).value)
      && SessionTrace(url, s, env.fails) == [Launched] + plan[..i + 1] + [Closed]
  {
    FirstFailingAt(Plan(url, s), env.fails, i);
  }

  /** A failed navigation fails the fetch with its error, after which only the
      close happens: no selector wait, no title, no evaluation. */
  lemma NavigationFailure(url: string, s: Settings, env: PageEnv, turndown: Turndown, m: string)
    requires && env.fails(NewPage).None? && env.fails(SetViewport(ViewportWidth, ViewportHeight)).None?
             && env.fails(SetUserAgent(s.userAgent)).None? && env.fails(Goto(url, s.timeout)) == Some(m)
    ensures SessionOutcome(url, s, env, turndown) == Err(m)
    ensures SessionTrace(url, s, env.fails) ==
      [Launched, NewPage, SetViewport(1280, 800), SetUserAgent(s.userAgent), Goto(url, s.timeout), Closed]
  {
    PlanShape(url, s);
    StoppedAt(url, s, env, turndown, 3);
    assert Plan(url, s)[..4] == [NewPage, SetViewport(1280, 800), SetUserAgent(s.userAgent), Goto(url, s.timeout)];
  }

  /** A selector that never appears fails the fetch with the wait's own error,
      after which only the close happens: no title, no evaluation. */
  lemma SelectorWaitFailure(url: string, s: Settings, env: PageEnv, turndown: Turndown, m: string)
    requires WaitsForSelector(s) && NavigationSucceeds(url, s, env.fails)
    requires env.fails(WaitForSelector(s.waitForSelector.value, s.timeout)) == Some(m)
    ensures SessionOutcome(url, s, env, turndown) == Err(m)
    ensures SessionTrace(url, s, env.fails) ==
      [Launched, NewPage, SetViewport(1280, 800), SetUserAgent(s.userAgent), Goto(url, s.timeout),
       WaitForSelector(s.waitForSelector.value, s.timeout), Closed]
  {
    PlanShape(url, s);
    StoppedAt(url, s, env, turndown, 4);
    assert Plan(url, s)[..5] == [NewPage, SetViewport(1280, 800), SetUserAgent(s.userAgent), Goto(url, s.timeout),
                                 WaitForSelector(s.waitForSelector.value, s.timeout)];
  }

  /** A launched session succeeds exactly when every planned call, the locator and
      the conversion succeed; its result then echoes the URL verbatim and carries the
      page title, the projected metadata and the converter's output for the located
      HTML, and every planned call was made. */
  lemma SessionSucceeds(url: string, s: Settings, env: PageEnv, turndown: Turndown)
    ensures var html := LocateMainContent(env.document);
      var r := SessionOutcome(url, s, env, turndown);
      && (r.Ok? <==>
            && FirstFailure(Plan(url, s), env.fails).None?
            && html.Ok?
            && turndown(ConfigureTurndown(s.includeImages), html.value).Ok?)
      && (r.Ok? ==>
            && r.value.url == url
            && r.value.title == env.title
            && r.value.metadata == Projection(RawMeta(env.document.metaTags))
            && r.value.markdown == turndown(ConfigureTurndown(s.includeImages), html.value).value
            && SessionTrace(url, s, env.fails) == [Launched] + Plan(url, s) + [Closed])
  {
    AttemptedIsPrefix(Plan(url, s), env.fails);
  }

  /** A fetch whose browser fails to launch rejects with the launch error and makes
      no browser call; otherwise it behaves as a session with the resolved options. */
  lemma LaunchDecides(url: string, options: FetchOptions, env: PageEnv, turndown: Turndown)
    ensures env.launchError.Some? ==>
      FetchOutcome(url, options, env, turndown) == Err(env.launchError.value) && FetchTrace(url, options, env) == []
    ensures env.launchError.None? ==>
      && FetchOutcome(url, options, env, turndown) == SessionOutcome(url, ResolveOptions(options), env, turndown)
      && FetchTrace(url, options, env) == SessionTrace(url, ResolveOptions(options), env.fails)
  {
  }

  /** Performs `plan[i]`, all earlier calls of `plan` having succeeded. */
  method Attempt(b: Browser, call: Event, ghost plan: seq<Event>, ghost start: seq<Event>, ghost i: nat)
    returns (err: Option<string>)
    requires !b.closed && call.IsPageCall() && i < |plan| && plan[i] == call
    requires b.trace == start + plan[..i]
    requires forall j :: 0 <= j < i ==> b.env.fails(plan[j]).None?
    modifies b
    ensures !b.closed && err == b.env.fails(call)
    ensures err.None? ==> b.trace == start + plan[..i + 1] && forall j :: 0 <= j <= i ==> b.env.fails(plan[j]).None?
    ensures err.Some? ==> b.trace == start + Attempted(plan, b.env.fails) && FirstFailure(plan, b.env.fails) == err
  {
    err := b.Perform(call);
    assert plan[..i + 1] == plan[..i] + [call];
    if err.Some? {
      FirstFailingAt(plan, b.env.fails, i);
    }
  }

  /** `extractMetadata(page)`: the scan runs inside the page, the projection outside. */
  method ExtractMetadata(b: Browser, ghost plan: seq<Event>, ghost start: seq<Event>, ghost i: nat)
    returns (r: Result<map<string, string>>)
    requires !b.closed && i < |plan| && plan[i] == EvaluateMetadata
    requires b.trace == start + plan[..i]
    requires forall j :: 0 <= j < i ==> b.env.fails(plan[j]).None?
    modifies b
    ensures !b.closed
    ensures r.Ok? <==> b.env.fails(EvaluateMetadata).None?
    ensures r.Ok? ==> r.value == Projection(RawMeta(b.env.document.metaTags))
    ensures r.Ok? ==> b.trace == start + plan[..i + 1] && forall j :: 0 <= j <= i ==> b.env.fails(plan[j]).None?
    ensures r.Err? ==> b.trace == start + Attempted(plan, b.env.fails) && FirstFailure(plan, b.env.fails) == Some(r.error)
  {
    var err := Attempt(b, EvaluateMetadata, plan, start, i);
    if err.Some? {
      return Err(err.value);
    }
    var metaTags := ScanMetaTags(b.env.document.metaTags);
    var metadata := ProjectMetadata(metaTags);
    r := Ok(metadata);
  }

  /** The first part of the `try` block: open the page, set viewport and user
      agent, navigate, and wait for the selector when one is given. */
  method OpenAndNavigate(b: Browser, url: string, s: Settings, ghost plan: seq<Event>, ghost start: seq<Event>)
    returns (err: Option<string>, ghost next: nat)
    requires !b.closed && plan == Plan(url, s) && b.trace == start
    modifies b
    ensures !b.closed
    ensures err.Some? ==> b.trace == start + Attempted(plan, b.env.fails) && FirstFailure(plan, b.env.fails) == err
    ensures err.None? ==> next == (if WaitsForSelector(s) then 5 else 4) && b.trace == start + plan[..next] &&
                          forall j :: 0 <= j < next ==> b.env.fails(plan[j]).None?
  {
    PlanShape(url, s);
    assert plan[..0] == [];
    next := 0;
    err := Attempt(b, NewPage, plan, start, 0);
    if err.Some? {
      return;
    }
    err := Attempt(b, SetViewport(ViewportWidth, ViewportHeight), plan, start, 1);
    if err.Some? {
      return;
    }
    err := Attempt(b, SetUserAgent(s.userAgent), plan, start, 2);
    if err.Some? {
      return;
    }
    err := Attempt(b, Goto(url, s.timeout), plan, start, 3);
    if err.Some? {
      return;
    }
    next := 4;
    if Truthy(s.waitForSelector) {
      err := Attempt(b, WaitForSelector(s.waitForSelector.value, s.timeout), plan, start, 4);
      next := 5;
    }
  }

  /** The second part of the `try` block: read the title, extract the metadata and
      evaluate the main content, the last three calls of `plan`. */
  method EvaluatePage(b: Browser, ghost plan: seq<Event>, ghost start: seq<Event>, ghost i: nat)
    returns (r: Result<RenderedPage>)
    requires !b.closed && |plan| == i + 3
    requires plan[i] == ReadTitle && plan[i + 1] == EvaluateMetadata && plan[i + 2] == EvaluateContent
    requires b.trace == start + plan[..i]
    requires forall j :: 0 <= j < i ==> b.env.fails(plan[j]).None?
    modifies b
    ensures !b.closed
    ensures b.trace == start + Attempted(plan, b.env.fails)
    ensures FirstFailure(plan, b.env.fails).Some? ==> r == Err(FirstFailure(plan, b.env.fails).value)
    ensures FirstFailure(plan, b.env.fails).None? ==>
      match LocateMainContent(b.env.document)
      case Err(e) => r == Err(e)
      case Ok(html) => r == Ok(RenderedPage(b.env.title, Projection(RawMeta(b.env.document.metaTags)), html))
  {
    var err := Attempt(b, ReadTitle, plan, start, i);
    if err.Some? {
      return Err(err.value);
    }
    var title := b.env.title;
    var metadata := ExtractMetadata(b, plan, start, i + 1);
    if metadata.Err? {
      return Err(metadata.error);
    }
    err := Attempt(b, EvaluateContent, plan, start, i + 2);
    if err.Some? {
      return Err(err.value);
    }
    FirstFailingAt(plan, b.env.fails, |plan|);
    assert plan[..i + 3] == plan;
    var html := LocateMainContent(b.env.document);
    if html.Err? {
      return Err(html.error);
    }
    r := Ok(RenderedPage(title, metadata.value, html.value));
  }

  /** The browser steps of the `try` block of `fetchUrl`. */
  method RenderPage(b: Browser, url: string, s: Settings) returns (r: Result<RenderedPage>)
    requires !b.closed
    modifies b
    ensures !b.closed
    ensures b.trace == old(b.trace) + Attempted(Plan(url, s), b.env.fails)
    ensures r == RenderOutcome(url, s, b.env)
  {
    ghost var plan := Plan(url, s);
    ghost var start := b.trace;
    var err, i := OpenAndNavigate(b, url, s, plan, start);
    if err.Some? {
      return Err(err.value);
    }
    PlanShape(url, s);
    r := EvaluatePage(b, plan, start, i);
  }

  /** The body of the `try` block of `fetchUrl` on a launched browser. */
  method RunSession(b: Browser, url: string, s: Settings, turndown: Turndown) returns (r: Result<FetchResult>)
    requires !b.closed
    modifies b
    ensures !b.closed
    ensures b.trace == old(b.trace) + Attempted(Plan(url, s), b.env.fails)
    ensures r == SessionOutcome(url, s, b.env, turndown)
  {
    var page := RenderPage(b, url, s);
    if page.Err? {
      return Err(page.error);
    }
    var turndownService := ConfigureTurndown(s.includeImages);
    var markdown := turndown(turndownService, page.value.html);
    if markdown.Err? {
      return Err(markdown.error);
    }
    r := Ok(FetchResult(url, markdown.value, page.value.title, page.value.metadata));
  }

  /** `fetchUrl`: launch, run the session inside `try`, close in `finally`.
      The ghost output is every event of the browser; `BrowserReleased` proves
      of it that the browser is closed exactly once, last, on every path. */
  method FetchUrl(url: string, options: FetchOptions, env: PageEnv, turndown: Turndown)
    returns (r: Result<FetchResult>, ghost trace: seq<Event>)
    ensures r == FetchOutcome(url, options, env, turndown)
    ensures trace == FetchTrace(url, options, env)
  {
    var s := ResolveOptions(options);
    if env.launchError.Some? {
      return Err(env.launchError.value), [];
    }
    var browser := new Browser.Launch(env);
    r := RunSession(browser, url, s, turndown);
    browser.Close();
    trace := browser.trace;
  }

  /** The outcome of each fetch of a batch, in input order. */
  function BatchOutcomes(urls: seq<string>, options: FetchOptions, sessions: nat -> PageEnv, turndown: Turndown)
    : (outcomes: seq<Result<FetchResult>>)
    ensures |outcomes| == |urls|
    ensures forall i :: 0 <= i < |urls| ==> outcomes[i] == FetchOutcome(urls[i], options, sessions(i), turndown)
  {
    seq(|urls|, i requires 0 <= i < |urls| => FetchOutcome(urls[i], options, sessions(i), turndown))
  }

  /** The batch's map after the first `n` fetches, sequentially: each success
      sets its URL's entry, each failure leaves the map as it was. */
  function BatchResults(urls: seq<string>, outcomes: seq<Result<FetchResult>>, n: nat): map<string, FetchResult>
    requires |outcomes| == |urls| && n <= |urls|
  {
    if n == 0 then map[]
    else
      var m := BatchResults(urls, outcomes, n - 1);
      if outcomes[n - 1].Ok? then m[urls[n - 1] := outcomes[n - 1].value] else m
  }

  /** `urls[i]` occurs nowhere else among the first `n` URLs. */
  predicate OccursOnceIn(urls: seq<string>, n: nat, i: int)
    requires n <= |urls|
  {
    0 <= i < n && forall j :: 0 <= j < n && j != i ==> urls[j] != urls[i]
  }

  /** The keys of the batch map are exactly the URLs one of whose fetches succeeded. */
  lemma {:induction false} BatchKeys(urls: seq<string>, outcomes: seq<Result<FetchResult>>, n: nat)
    requires |outcomes| == |urls| && n <= |urls|
    ensures forall u :: u in BatchResults(urls, outcomes, n) <==>
      exists i :: 0 <= i < n && urls[i] == u && outcomes[i].Ok?
  {
    if n > 0 {
      BatchKeys(urls, outcomes, n - 1);
    }
  }

  /** Every entry of the batch map is the result of a successful fetch of its URL. */
  lemma {:induction false} BatchValues(urls: seq<string>, outcomes: seq<Result<FetchResult>>, n: nat)
    requires |outcomes| == |urls| && n <= |urls|
    ensures forall u :: u in BatchResults(urls, outcomes, n) ==>
      exists i :: 0 <= i < n && urls[i] == u && outcomes[i] == Ok(BatchResults(urls, outcomes, n)[u])
  {
    if n > 0 {
      BatchValues(urls, outcomes, n - 1);
      var m := BatchResults(urls, outcomes, n - 1);
      var m' := BatchResults(urls, outcomes, n);
      forall u | u in m'
        ensures exists i :: 0 <= i < n && urls[i] == u && outcomes[i] == Ok(m'[u])
      {
        if u != urls[n - 1] || outcomes[n - 1].Err? {
          var i :| 0 <= i < n - 1 && urls[i] == u && outcomes[i] == Ok(m[u]);
        } else {
          assert outcomes[n - 1] == Ok(m'[u]);
        }
      }
    }
  }

  /** A URL fetched once maps to the result of that fetch when it succeeded. */
  lemma {:induction false} BatchSingle(urls: seq<string>, outcomes: seq<Result<FetchResult>>, n: nat)
    requires |outcomes| == |urls| && n <= |urls|
    ensures forall i :: OccursOnceIn(urls, n, i) && outcomes[i].Ok? ==>
      urls[i] in BatchResults(urls, outcomes, n) && BatchResults(urls, outcomes, n)[urls[i]] == outcomes[i].value
  {
    if n > 0 {
      BatchSingle(urls, outcomes, n - 1);
      forall i | OccursOnceIn(urls, n, i) && outcomes[i].Ok?
        ensures urls[i] in BatchResults(urls, outcomes, n) && BatchResults(urls, outcomes, n)[urls[i]] == outcomes[i].value
      {
        if i < n - 1 {
          assert urls[n - 1] != urls[i];
          assert OccursOnceIn(urls, n - 1, i);
        }
      }
    }
  }

  /** What the batch map means: its keys are the URLs with a successful fetch, each
      entry is the result of one such fetch, and a URL fetched once maps to the
      result of that fetch. */
  lemma BatchMeaning(urls: seq<string>, outcomes: seq<Result<FetchResult>>, results: map<string, FetchResult>)
    requires |outcomes| == |urls| && results == BatchResults(urls, outcomes, |urls|)
    ensures forall u :: u in results <==> exists i :: 0 <= i < |urls| && urls[i] == u && outcomes[i].Ok?
    ensures forall u :: u in results ==> exists i :: 0 <= i < |urls| && urls[i] == u && outcomes[i] == Ok(results[u])
    ensures forall i :: OccursOnceIn(urls, |urls|, i) && outcomes[i].Ok? ==>
      urls[i] in results && results[urls[i]] == outcomes[i].value
  {
    BatchKeys(urls, outcomes, |urls|);
    BatchValues(urls, outcomes, |urls|);
    BatchSingle(urls, outcomes, |urls|);
  }

  /** The callback mapped over the URLs: fetch one URL and record a success under
      that URL; a failure is caught and leaves the map unchanged. */
  method FetchInto(results: map<string, FetchResult>, url: string, options: FetchOptions, env: PageEnv, turndown: Turndown)
    returns (results': map<string, FetchResult>)
    ensures var outcome := FetchOutcome(url, options, env, turndown);
      results' == if outcome.Ok? then results[url := outcome.value] else results
  {
    var result;
    ghost var trace;
    result, trace := FetchUrl(url, options, env, turndown);
    results' := results;
    if result.Ok? {
      results' := results[url := result.value];
    }
  }

  /** `fetchMultipleUrls` as a sequential loop; `sessions(i)` is how the
      browser of the `i`-th fetch behaves. Failures are dropped, never raised. */
  method FetchMultipleUrls(urls: seq<string>, options: FetchOptions, sessions: nat -> PageEnv, turndown: Turndown)
    returns (results: map<string, FetchResult>)
    ensures var outcomes := BatchOutcomes(urls, options, sessions, turndown);
      && results == BatchResults(urls, outcomes, |urls|)
      && (forall u :: u in results <==> exists i :: 0 <= i < |urls| && urls[i] == u && outcomes[i].Ok?)
      && (forall u :: u in results ==> exists i :: 0 <= i < |urls| && urls[i] == u && outcomes[i] == Ok(results[u]))
      && (forall i :: OccursOnceIn(urls, |urls|, i) && outcomes[i].Ok? ==>
            urls[i] in results && results[urls[i]] == outcomes[i].value)
  {
    ghost var outcomes := BatchOutcomes(urls, options, sessions, turndown);
    results := map[];
    var i := 0;
    while i < |urls|
      invariant 0 <= i <= |urls|
      invariant results == BatchResults(urls, outcomes, i)
    {
      results := FetchInto(results, urls[i], options, sessions(i), turndown);
      i := i + 1;
    }
    BatchMeaning(urls, outcomes, results);
  }
}
