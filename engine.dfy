/**
  * The browser-automation engine (Playwright driving Chromium) as the capture code sees it.
  * The engine itself is not modelled: every call into it is answered by an oracle, a
  * value of type `Browser` that fixes in advance how each call turns out. Browser contexts
  * and pages are objects whose ghost `closes` counters record how often they were released.
  */
module Engine {
  import opened Common
  import opened Dom

  type Bytes = seq<bv8>

  type Cookie = map<string, string>

  datatype Size = Size(width: int, height: int)

  /** The HTTP response `page.goto` resolves to. */
  datatype Response = Response(status: nat)

  /** What one `page.goto` call does: it resolves (to a response or to None) or raises. */
  datatype GotoResult = Navigated(response: Option<Response>) | GotoFailed(message: string)

  /** The `wait_until` argument of `page.goto`. */
  datatype WaitUntil = DomContentLoaded | NetworkIdle | Load | Commit

  /** One `page.goto` call: its wait condition (None: the engine's default) and its timeout in ms. */
  datatype Attempt = Attempt(waitUntil: Option<WaitUntil>, timeout: real)

  /** The observable steps of a navigation, in the order they happen. */
  datatype Event =
    | Goto(attempt: Attempt)
    | PageWait(ms: int)             // page.wait_for_timeout(ms)
    | Sleep(seconds: real)          // asyncio.sleep(seconds)
    | ReadinessWait(timeout: int)   // the content-readiness wait_for_function
    | NetworkIdleWait(timeout: int) // page.wait_for_load_state("networkidle")
    | ContentWait(check: ContentCheck, timeout: int) // one wait_for_function of the final content check
    | Snapshot(target: Target)      // one screenshot attempt: the element lookup, then the capture

  /** The `page.goto` attempts recorded in a trace, in order. */
  function Gotos(trace: seq<Event>): (r: seq<Attempt>)
    ensures |r| <= |trace|
  {
    if trace == [] then []
    else (if trace[0].Goto? then [trace[0].attempt] else []) + Gotos(trace[1..])
  }

  lemma {:induction false} GotosAppend(a: seq<Event>, b: seq<Event>)
    ensures Gotos(a + b) == Gotos(a) + Gotos(b)
    decreases |a|
  {
    if a == [] {
      assert a + b == b;
    } else {
      assert (a + b)[0] == a[0];
      assert (a + b)[1..] == a[1..] + b;
      GotosAppend(a[1..], b);
      var h := if a[0].Goto? then [a[0].attempt] else [];
      calc {
        Gotos(a + b);
        h + Gotos(a[1..] + b);
        h + (Gotos(a[1..]) + Gotos(b));
        (h + Gotos(a[1..])) + Gotos(b);
      }
    }
  }

  /** Waits and sleeps contain no `page.goto`. */
  lemma {:induction false} GotosOfWaits(trace: seq<Event>)
    requires forall i :: 0 <= i < |trace| ==> !trace[i].Goto?
    ensures Gotos(trace) == []
    decreases |trace|
  {
    if trace != [] {
      GotosOfWaits(trace[1..]);
    }
  }

  /** The keyword arguments given to `browser.new_context`; None is a key that is not passed. */
  datatype ContextOptions = ContextOptions(
    viewport: Size,
    ignoreHttpsErrors: bool,
    javaScriptEnabled: bool,
    userAgent: Option<string>,
    bypassCsp: Option<bool>,
    locale: Option<string>,
    timezoneId: Option<string>,
    geolocation: Option<(real, real)>,
    permissions: Option<seq<string>>,
    isMobile: Option<bool>,
    hasTouch: Option<bool>,
    deviceScaleFactor: Option<int>)

  /** What `page.screenshot` or `element.screenshot` is asked for. */
  datatype ScreenshotOptions = ScreenshotOptions(imageType: string, fullPage: bool, quality: Option<int>)

  datatype Target = WholePage | Element(selector: string)

  datatype Outcome = Pass | Fail(message: string)

  /**
    * How every engine call of one capture turns out. `goto(k)` answers the k-th `page.goto`,
    * `metrics` the complexity evaluation (None: it raised), `polls(c)` the document states
    * a readiness wait sees, `elementFound(k)` and `screenshot` the k-th capture attempt,
    * `decode` the image decoder that reads the dimensions (Err: it raised) and `base64` the
    * encoder.
    */
  datatype Browser = Browser(
    launch: Outcome,
    newContext: Outcome,
    setHeaders: Outcome,
    addCookies: Outcome,
    route: Outcome,
    newPage: Outcome,
    addStyleTag: Outcome,
    goto: nat -> GotoResult,
    metrics: Option<PageMetrics>,
    polls: ContentCheck -> seq<PageState>,
    elementFound: nat -> bool,
    screenshot: (Target, ScreenshotOptions, nat) -> Result<Bytes, string>,
    decode: Bytes -> Result<Size, string>,
    base64: Bytes -> string)

  /** The page figures the complexity script collects. */
  datatype PageMetrics = PageMetrics(
    scriptCount: nat,
    styleCount: nat,
    imageCount: nat,
    iframeCount: nat,
    hasReact: bool,
    hasAngular: bool,
    hasVue: bool,
    hasJQuery: bool,
    domNodes: nat)

  /** The three waits of the final content check. */
  datatype ContentCheck = ImageCheck | LazyLoadCheck | ThumbnailCheck

  /** An exception raised during a capture: one from the engine, the decoder or Python
      (its text given), or an HTTPException raised by the capture code itself. */
  datatype Failure = EngineError(message: string) | HttpError(status: nat, detail: string)

  /** `str(e)` of the exception; an HTTPException prints as "<status>: <detail>". */
  function ErrorText(f: Failure): string
  {
    match f
    case EngineError(m) => m
    case HttpError(s, d) => NatToString(s) + ": " + d
  }

  /** What the finally blocks release, in order. */
  datatype Release = PageClosed | ContextClosed

  /** A browser context: the options it was created with and what was set on it since. */
  class Context {
    const options: ContextOptions
    var extraHeaders: Option<map<string, string>>
    var cookies: seq<Cookie>
    var routed: bool
    ghost var closes: nat

    constructor (options: ContextOptions)
      ensures this.options == options
      ensures extraHeaders == None && cookies == [] && !routed && closes == 0
    {
      this.options := options;
      extraHeaders := None;
      cookies := [];
      routed := false;
      closes := 0;
    }

    method SetExtraHttpHeaders(headers: map<string, string>)
      modifies this
      ensures extraHeaders == Some(headers)
      ensures cookies == old(cookies) && routed == old(routed) && closes == old(closes)
    {
      extraHeaders := Some(headers);
    }

    method AddCookies(more: seq<Cookie>)
      modifies this
      ensures cookies == old(cookies) + more
      ensures extraHeaders == old(extraHeaders) && routed == old(routed) && closes == old(closes)
    {
      cookies := cookies + more;
    }

    // context.route over every URL: each sub-resource request now goes to the handler.
    method Route()
      modifies this
      ensures routed
      ensures extraHeaders == old(extraHeaders) && cookies == old(cookies) && closes == old(closes)
    {
      routed := true;
    }

    method Close()
      modifies this
      ensures closes == old(closes) + 1
      ensures extraHeaders == old(extraHeaders) && cookies == old(cookies) && routed == old(routed)
    {
      closes := closes + 1;
    }
  }

  /** A page opened in a context. */
  class Page {
    const context: Context
    var styled: bool
    ghost var closes: nat

    constructor (context: Context)
      ensures this.context == context && !styled && closes == 0
    {
      this.context := context;
      styled := false;
      closes := 0;
    }

    /** `page.add_style_tag`: the animation-disabling rules are now in the page. */
    method AddStyleTag()
      modifies this
      ensures styled && closes == old(closes)
    {
      styled := true;
    }

    method Close()
      modifies this
      ensures closes == old(closes) + 1 && styled == old(styled)
    {
      closes := closes + 1;
    }
  }
}
