/**
 * The page renderer as an abstract browser: a `Browser` object that records
 * every call made on it and knows whether it has been closed. Each call may
 * throw; how a session answers is given by a `PageEnv` value.
 */
module Renderer {
  import opened Common
  import opened Dom

  /** One call on the browser or its page, with the arguments that matter. */
  datatype Event =
    | Launched
    | NewPage
    | SetViewport(width: int, height: int)
    | SetUserAgent(userAgent: string)
    | Goto(url: string, timeout: int)
    | WaitForSelector(selector: string, timeout: int)
    | ReadTitle
    | EvaluateMetadata
    | EvaluateContent
    | Closed
  {
    /** A call made on the open page (not launching or closing the browser). */
    predicate IsPageCall() {
      !Launched? && !Closed?
    }
  }

  /** How one browser session behaves: the error `puppeteer.launch` throws, if any;
      the error each page call throws, if any; the page title; the rendered document. */
  datatype PageEnv = PageEnv(
    launchError: Option<string>,
    fails: Event -> Option<string>,
    title: string,
    document: Document)

  /** A launched browser with its single page. */
  class Browser {
    const env: PageEnv
    var closed: bool
    var trace: seq<Event>

    /** `puppeteer.launch` when it succeeds. */
    constructor Launch(env: PageEnv)
      requires env.launchError.None?
      ensures this.env == env && !closed && trace == [Launched]
    {
      this.env := env;
      closed := false;
      trace := [Launched];
    }

    /** One awaited call on the open page; it throws `env.fails(call)` if that is set. */
    method Perform(call: Event) returns (err: Option<string>)
      requires !closed && call.IsPageCall()
      modifies this
      ensures !closed && trace == old(trace) + [call]
      ensures err == env.fails(call)
    {
      trace := trace + [call];
      err := env.fails(call);
    }

    /** `browser.close()`. */
    method Close()
      modifies this
      ensures closed && trace == old(trace) + [Closed]
    {
      trace := trace + [Closed];
      closed := true;
    }
  }

  /** The position of the first call of `plan` that throws, or `|plan|` when none does. */
  function FirstFailing(plan: seq<Event>, fails: Event -> Option<string>): (k: nat)
    ensures k <= |plan|
    ensures forall j :: 0 <= j < k ==> fails(plan[j]).None?
    ensures k < |plan| ==> fails(plan[k]).Some?
  {
    if plan == [] then 0
    else if fails(plan[0]).Some? then 0
    else
      var k := FirstFailing(plan[1..], fails);
      assert forall j :: 1 <= j < |plan| ==> plan[j] == plan[1..][j - 1];
      1 + k
  }

  /** The calls a straight-line sequence of awaits actually makes: those of
      `plan` up to and including the first one that throws. */
  function Attempted(plan: seq<Event>, fails: Event -> Option<string>): seq<Event> {
    var k := FirstFailing(plan, fails);
    if k < |plan| then plan[..k + 1] else plan
  }

  /** The error that ends the sequence early, if any. */
  function FirstFailure(plan: seq<Event>, fails: Event -> Option<string>): Option<string> {
    var k := FirstFailing(plan, fails);
    if k < |plan| then fails(plan[k]) else None
  }

  /** The first failing call is determined by any position that fails after a run of successes. */
  lemma FirstFailingAt(plan: seq<Event>, fails: Event -> Option<string>, i: nat)
    requires i <= |plan|
    requires forall j :: 0 <= j < i ==> fails(plan[j]).None?
    requires i < |plan| ==> fails(plan[i]).Some?
    ensures FirstFailing(plan, fails) == i
  {
  }

  /** The attempted calls are a prefix of the plan; when nothing failed they are
      the whole plan, otherwise the last of them is the call that threw. */
  lemma AttemptedIsPrefix(plan: seq<Event>, fails: Event -> Option<string>)
    ensures |Attempted(plan, fails)| <= |plan|
    ensures Attempted(plan, fails) == plan[..|Attempted(plan, fails)|]
    ensures FirstFailure(plan, fails).None? ==> Attempted(plan, fails) == plan
    ensures FirstFailure(plan, fails).Some? ==>
      |Attempted(plan, fails)| > 0 &&
      fails(Attempted(plan, fails)[|Attempted(plan, fails)| - 1]) == FirstFailure(plan, fails)
  {
  }

  /** The whole trace of a launched browser running `plan` in a try block whose
      finally clause closes it. */
  function Session(plan: seq<Event>, fails: Event -> Option<string>): seq<Event> {
    [Launched] + Attempted(plan, fails) + [Closed]
  }

  /** A session opens with the launch and ends with the single close; each event in
      between is the planned call at that position, and none comes after the
      first failing call. */
  lemma SessionFollowsPlan(plan: seq<Event>, fails: Event -> Option<string>)
    ensures var t := Session(plan, fails);
      && 2 <= |t| <= |plan| + 2
      && t[0] == Launched && t[|t| - 1] == Closed
      && forall j :: 0 < j < |t| - 1 ==> j - 1 <= FirstFailing(plan, fails) && t[j] == plan[j - 1]
  {
    AttemptedIsPrefix(plan, fails);
    var a := Attempted(plan, fails);
    assert forall j :: 0 <= j < |a| ==> a[j] == plan[j];
  }

  /** A session whose plan holds page calls only has page calls only between its
      launch and its close. */
  lemma SessionPageCalls(plan: seq<Event>, fails: Event -> Option<string>)
    requires forall j :: 0 <= j < |plan| ==> plan[j].IsPageCall()
    ensures var t := Session(plan, fails);
      forall k :: 0 < k < |t| - 1 ==> t[k].IsPageCall()
  {
    SessionFollowsPlan(plan, fails);
  }
}
