/**
  * One capture of the enhanced engine (src/core/screenshot_service.py): the browser context
  * is created with the request's options, headers, cookies and interceptor; a page is opened,
  * navigated, waited on and captured with up to three screenshot attempts; every exception
  * becomes a failure response; and the page and the context are released at the end.
  */
module ScreenshotService {
  import opened Common
  import opened Dom
  import opened Engine
  import opened Models
  import opened Navigation
  import opened ContentChecker

  const DefaultUserAgent: string :=
    "Mozilla/5.0 (Windows NT 10.0; Win64; x64) AppleWebKit/537.36 (KHTML, like Gecko) Chrome/138.0.0.0 Safari/537.36"

  const DefaultHeaders: map<string, string> := map[
    "Accept" := "text/html,application/xhtml+xml,application/xml;q=0.9,image/avif,image/webp,image/apng,*/*;q=0.8",
    "Accept-Language" := "en-US,en;q=0.9",
    "Accept-Encoding" := "gzip, deflate, br",
    "DNT" := "1",
    "Upgrade-Insecure-Requests" := "1",
    "Sec-Fetch-Dest" := "document",
    "Sec-Fetch-Mode" := "navigate",
    "Sec-Fetch-Site" := "none",
    "Cache-Control" := "max-age=0"
  ]

  /** An optional string that Python treats as true: present and not empty. */
  predicate HasText(s: Option<string>)
  {
    s.Some? && s.value != ""
  }

  /** The request cookies when the list is given and not empty. */
  predicate HasCookies(r: ScreenshotRequest)
  {
    r.cookies.Some? && r.cookies.value != []
  }

  /** The keyword arguments of `new_context`: the fixed options, the request's user agent
      when it has one, and the mobile emulation keys only for a mobile request. */
  function ContextOptionsFor(r: ScreenshotRequest): (o: ContextOptions)
    ensures o.viewport == Size(r.width, r.height) && o.ignoreHttpsErrors && o.javaScriptEnabled
    ensures o.userAgent.Some? && o.userAgent.value != ""
    ensures HasText(r.userAgent) ==> o.userAgent == r.userAgent
    ensures !HasText(r.userAgent) ==> o.userAgent == Some(DefaultUserAgent)
    ensures r.mobile <==> o.isMobile.Some?
    ensures r.mobile ==> o.isMobile == Some(true) && o.hasTouch == Some(true) && o.deviceScaleFactor == Some(2)
    ensures !r.mobile ==> o.hasTouch.None? && o.deviceScaleFactor.None?
    ensures o.bypassCsp == Some(true) && o.locale == Some("en-US") && o.timezoneId == Some("America/New_York")
    ensures o.geolocation == Some((-74.0059, 40.7128)) && o.permissions == Some(["geolocation"])
  {
    var fixed := ContextOptions(
      Size(r.width, r.height), true, true,
      Some(if HasText(r.userAgent) then r.userAgent.value else DefaultUserAgent),
      Some(true), Some("en-US"), Some("America/New_York"), Some((-74.0059, 40.7128)), Some(["geolocation"]),
      None, None, None);
    if r.mobile then fixed.(isMobile := Some(true), hasTouch := Some(true), deviceScaleFactor := Some(2))
    else fixed
  }

  /** `defaults.update(extra)` when `extra` is given and not empty: every key of either, the
      value of `extra` where it has the key and the default elsewhere. */
  function MergeHeaders(defaults: map<string, string>, extra: Option<map<string, string>>): (h: map<string, string>)
    ensures forall k :: k in h <==> k in defaults || (extra.Some? && k in extra.value)
    ensures forall k :: k in h && extra.Some? && k in extra.value ==> h[k] == extra.value[k]
    ensures forall k :: k in h && !(extra.Some? && k in extra.value) ==> h[k] == defaults[k]
  {
    if extra.Some? && extra.value != map[] then defaults + extra.value else defaults
  }

  /** The screenshot arguments: the image type and full-page flag, and the quality only for
      a jpeg request whose quality is set and not zero. */
  function ScreenshotOptionsFor(r: ScreenshotRequest): (o: ScreenshotOptions)
    ensures o.imageType == r.format && o.fullPage == r.fullPage
    ensures o.quality.Some? <==> r.format == "jpeg" && r.quality.Some? && r.quality.value != 0
    ensures o.quality.Some? ==> o.quality == r.quality
  {
    ScreenshotOptions(r.format, r.fullPage,
      if r.format == "jpeg" && r.quality.Some? && r.quality.value != 0 then r.quality else None)
  }

  /** A valid request's quality reaches the screenshot exactly when it is a jpeg request
      with a quality. */
  lemma ValidQualityReachesScreenshot(r: ScreenshotRequest)
    requires Valid(r)
    ensures ScreenshotOptionsFor(r).quality == r.quality
  {
  }

  // ---------------------------------------------------------------------------------------
  // Creating the context

  /** The first failure of opening a context: the browser launch (only when no browser is
      up yet), then `new_context`. */
  function OpenFailure(browserUp: bool, b: Browser): Option<Failure>
  {
    if !browserUp && b.launch.Fail? then Some(EngineError(b.launch.message))
    else if b.newContext.Fail? then Some(EngineError(b.newContext.message))
    else None
  }

  predicate ContextOpened(browserUp: bool, b: Browser)
  {
    OpenFailure(browserUp, b).None?
  }

  /** The first failure of configuring an opened context: the headers (always set), the
      cookies (only when the request has some), the interceptor (only with ad blocking). */
  function ConfigureFailure(r: ScreenshotRequest, b: Browser): Option<Failure>
  {
    if b.setHeaders.Fail? then Some(EngineError(b.setHeaders.message))
    else if HasCookies(r) && b.addCookies.Fail? then Some(EngineError(b.addCookies.message))
    else if r.blockAds && b.route.Fail? then Some(EngineError(b.route.message))
    else None
  }

  /** The exception create_context raises, if any. */
  function SetupFailure(browserUp: bool, r: ScreenshotRequest, b: Browser): (f: Option<Failure>)
    ensures f.None? ==> ContextOpened(browserUp, b)
  {
    if OpenFailure(browserUp, b).Some? then OpenFailure(browserUp, b) else ConfigureFailure(r, b)
  }

  function CookiesOf(r: ScreenshotRequest): seq<Cookie>
  {
    if HasCookies(r) then r.cookies.value else []
  }

  /** A context configured for `r`. */
  predicate Configured(c: Context, r: ScreenshotRequest)
    reads c
  {
    && c.options == ContextOptionsFor(r)
    && c.extraHeaders == Some(MergeHeaders(DefaultHeaders, r.headers))
    && c.cookies == CookiesOf(r)
    && c.routed == r.blockAds
  }

  // ---------------------------------------------------------------------------------------
  // take_screenshot_with_retry

  const MaxShotAttempts: nat := 3

  /** What the capture attempts: the element when the request has a selector, else the page. */
  function ShotTarget(r: ScreenshotRequest): Target
  {
    if HasText(r.selector) then Element(r.selector.value) else WholePage
  }

  function NotFoundDetail(selector: string): string
  {
    "Element with selector '" + selector + "' not found"
  }

  /** Attempt `k`: a missing element raises the 400 HTTPException, a capture error its message. */
  function ShotAttempt(r: ScreenshotRequest, b: Browser, options: ScreenshotOptions, k: nat): Result<Bytes, Failure>
  {
    var target := ShotTarget(r);
    if target.Element? && !b.elementFound(k) then Err(HttpError(400, NotFoundDetail(target.selector)))
    else Raised(b.screenshot(target, options, k))
  }

  /** An engine call's outcome with its error message as the exception it raises. */
  function Raised<T>(res: Result<T, string>): Result<T, Failure>
  {
    match res
    case Ok(v) => Ok(v)
    case Err(m) => Err(EngineError(m))
  }

  /** The captured image or the exception re-raised, and the attempts and sleeps made. */
  datatype Shots = Shots(result: Result<Bytes, Failure>, events: seq<Event>)

  /** The retry loop from attempt `attempt` on: the first success is returned, a failure
      sleeps `1 + attempt` seconds and retries, and the failure of the last attempt is
      re-raised. */
  function RetryFrom(r: ScreenshotRequest, b: Browser, options: ScreenshotOptions, attempt: nat): (s: Shots)
    requires attempt < MaxShotAttempts
    ensures 1 <= |s.events|
    ensures s.events[0] == Snapshot(ShotTarget(r))
    decreases MaxShotAttempts - attempt
  {
    var tried := [Snapshot(ShotTarget(r))];
    var outcome := ShotAttempt(r, b, options, attempt);
    if outcome.Ok? || attempt == MaxShotAttempts - 1 then Shots(outcome, tried)
    else
      var rest := RetryFrom(r, b, options, attempt + 1);
      Shots(rest.result, tried + [Sleep((1 + attempt) as real)] + rest.events)
  }

  /** The retry loop makes screenshot attempts and sleeps, nothing else, and at most one
      attempt and one sleep for each attempt left but the last. */
  lemma {:induction false} RetryEvents(r: ScreenshotRequest, b: Browser, options: ScreenshotOptions, attempt: nat)
    requires attempt < MaxShotAttempts
    ensures var s := RetryFrom(r, b, options, attempt);
      && |s.events| <= 2 * (MaxShotAttempts - attempt) - 1
      && forall i :: 0 <= i < |s.events| ==> s.events[i] == Snapshot(ShotTarget(r)) || s.events[i].Sleep?
    decreases MaxShotAttempts - attempt
  {
    var s := RetryFrom(r, b, options, attempt);
    if !(ShotAttempt(r, b, options, attempt).Ok? || attempt == MaxShotAttempts - 1) {
      var rest := RetryFrom(r, b, options, attempt + 1);
      RetryEvents(r, b, options, attempt + 1);
      assert s.events == [Snapshot(ShotTarget(r)), Sleep((1 + attempt) as real)] + rest.events;
    }
  }

  /** One attempt of the retry loop, unfolded. */
  lemma RetryStep(r: ScreenshotRequest, b: Browser, options: ScreenshotOptions, attempt: nat)
    requires attempt < MaxShotAttempts
    ensures ShotAttempt(r, b, options, attempt).Ok? || attempt == MaxShotAttempts - 1 ==>
      RetryFrom(r, b, options, attempt) == Shots(ShotAttempt(r, b, options, attempt), [Snapshot(ShotTarget(r))])
    ensures ShotAttempt(r, b, options, attempt).Err? && attempt < MaxShotAttempts - 1 ==>
      && RetryFrom(r, b, options, attempt).result == RetryFrom(r, b, options, attempt + 1).result
      && RetryFrom(r, b, options, attempt).events
         == [Snapshot(ShotTarget(r)), Sleep((1 + attempt) as real)] + RetryFrom(r, b, options, attempt + 1).events
  {
  }

  lemma PrependShots(events: seq<Event>, shot: Event, pause: Event, rest: seq<Event>)
    ensures events + ([shot, pause] + rest) == events + [shot] + [pause] + rest
  {
    assert [shot, pause] == [shot] + [pause];
  }

  /** The three ways the retry ends: the first attempt succeeds; it fails and the second,
      after a 1 s sleep, succeeds; or both fail and the third, after a 2 s sleep, decides,
      its failure being the one raised. */
  lemma {:induction false} RetrySchedule(r: ScreenshotRequest, b: Browser, options: ScreenshotOptions)
    ensures var s, a := RetryFrom(r, b, options, 0), Snapshot(ShotTarget(r));
      && (ShotAttempt(r, b, options, 0).Ok? ==> s == Shots(ShotAttempt(r, b, options, 0), [a]))
      && (ShotAttempt(r, b, options, 0).Err? && ShotAttempt(r, b, options, 1).Ok? ==>
            s == Shots(ShotAttempt(r, b, options, 1), [a, Sleep(1.0), a]))
      && (ShotAttempt(r, b, options, 0).Err? && ShotAttempt(r, b, options, 1).Err? ==>
            s == Shots(ShotAttempt(r, b, options, 2), [a, Sleep(1.0), a, Sleep(2.0), a]))
  {
    var a := Snapshot(ShotTarget(r));
    var s2 := RetryFrom(r, b, options, 2);
    assert s2 == Shots(ShotAttempt(r, b, options, 2), [a]);
    var s1 := RetryFrom(r, b, options, 1);
    if ShotAttempt(r, b, options, 1).Err? {
      assert s1 == Shots(s2.result, [a] + [Sleep(2.0)] + s2.events);
    }
  }

  /** A selector whose element is missing at the first lookup but present at the second is
      captured: the missing element is retried like any other failure. */
  lemma MissingElementIsRetried(r: ScreenshotRequest, b: Browser, options: ScreenshotOptions)
    requires HasText(r.selector) && !b.elementFound(0) && b.elementFound(1)
    requires b.screenshot(Element(r.selector.value), options, 1).Ok?
    ensures RetryFrom(r, b, options, 0).result == Ok(b.screenshot(Element(r.selector.value), options, 1).value)
  {
    RetrySchedule(r, b, options);
  }

  /** An element that stays missing is reported as the 400 not-found error after three lookups. */
  lemma MissingElementIsReported(r: ScreenshotRequest, b: Browser, options: ScreenshotOptions)
    requires HasText(r.selector) && forall k :: !b.elementFound(k)
    ensures RetryFrom(r, b, options, 0).result == Err(HttpError(400, NotFoundDetail(r.selector.value)))
    ensures |RetryFrom(r, b, options, 0).events| == 5
  {
    RetrySchedule(r, b, options);
  }

  // ---------------------------------------------------------------------------------------
  // capture_screenshot

  /** The response of a capture that raised `f`: no data, a 0 x 0 size and the text of `f`. */
  function FailedResponse(r: ScreenshotRequest, f: Failure): ScreenshotResponse
  {
    ScreenshotResponse(false, r.url, Size(0, 0), r.format, None, Some(ErrorText(f)))
  }

  function LoadFailureDetail(response: Option<Response>): string
  {
    "Failed to load URL: " + (if response.Some? then NatToString(response.value.status) else "No response")
  }

  /** A navigation answer the capture accepts: a response with a status below 400. */
  predicate Loaded(response: Option<Response>)
  {
    response.Some? && response.value.status < 400
  }

  function NavFlagsOf(r: ScreenshotRequest): NavFlags
  {
    NavFlags(r.aggressiveWait, r.smartWait, r.waitForNetworkIdle)
  }

  /** The waits between a successful navigation and the screenshot: the smart delay when it
      is positive, then the final content check. */
  function SettleWaits(r: ScreenshotRequest, b: Browser, defaultDelay: int): seq<Event>
  {
    var delay := SmartDelay(r.delay, defaultDelay, r.smartWait, r.extraWaitTime, b.metrics);
    (if delay > 0 then [PageWait(delay)] else []) + FinalContentCheck(r.smartWait, r.url, b.polls)
  }

  /** The response a captured image (or the exception of the last attempt) leads to: the
      decoder's dimensions, and the base64 data only when that output format is asked for. */
  function Finish(r: ScreenshotRequest, b: Browser, shot: Result<Bytes, Failure>): ScreenshotResponse
  {
    match shot
    case Err(f) => FailedResponse(r, f)
    case Ok(bytes) =>
      match b.decode(bytes)
      case Err(m) => FailedResponse(r, EngineError(m))
      case Ok(size) =>
        ScreenshotResponse(true, r.url, size, r.format, if r.outputFormat == "base64" then Some(b.base64(bytes)) else None, None)
  }

  /** What happens on an opened page. */
  datatype PageRun = PageRun(response: ScreenshotResponse, trace: seq<Event>)

  /** Everything between new_page and the finally block. */
  function OnPage(r: ScreenshotRequest, b: Browser, defaultDelay: int): PageRun
  {
    if r.disableAnimations && b.addStyleTag.Fail? then PageRun(FailedResponse(r, EngineError(b.addStyleTag.message)), [])
    else AfterNavigation(r, b, defaultDelay, Navigate(r.timeout, NavFlagsOf(r), b.goto))
  }

  /** What follows navigation `nav`: its error, or the status check, or the waits and the
      screenshot. */
  function AfterNavigation(r: ScreenshotRequest, b: Browser, defaultDelay: int, nav: Run): PageRun
  {
    match nav.result
    case Err(m) => PageRun(FailedResponse(r, EngineError(m)), nav.trace)
    case Ok(response) =>
      if !Loaded(response) then PageRun(FailedResponse(r, HttpError(400, LoadFailureDetail(response))), nav.trace)
      else
        var shots := RetryFrom(r, b, ScreenshotOptionsFor(r), 0);
        PageRun(Finish(r, b, shots.result), nav.trace + SettleWaits(r, b, defaultDelay) + shots.events)
  }

  /** A whole capture: its response, the trace of the page, and the handles released. */
  datatype CaptureRun = CaptureRun(response: ScreenshotResponse, trace: seq<Event>, releases: seq<Release>)

  /** The page is opened when the context is set up and new_page succeeds. */
  predicate PageOpened(browserUp: bool, r: ScreenshotRequest, b: Browser)
  {
    SetupFailure(browserUp, r, b).None? && b.newPage.Pass?
  }

  /** What the finally block releases: the page if it was opened, then the context if
      create_context returned one. */
  function FinallyReleases(browserUp: bool, r: ScreenshotRequest, b: Browser): seq<Release>
  {
    if SetupFailure(browserUp, r, b).Some? then []
    else if b.newPage.Fail? then [ContextClosed]
    else [PageClosed, ContextClosed]
  }

  /** The release create_context makes itself when configuring an opened context fails. */
  function SetupReleases(browserUp: bool, r: ScreenshotRequest, b: Browser): seq<Release>
  {
    if ContextOpened(browserUp, b) && SetupFailure(browserUp, r, b).Some? then [ContextClosed] else []
  }

  /** capture_screenshot, CORRECTED: a context opened by a setup that then fails is released
      before the error propagates, which the source's create_context does not do (see
      `SetupFailureLeaksContext` for the program as written). */
  function Capture(browserUp: bool, r: ScreenshotRequest, b: Browser, defaultDelay: int): CaptureRun
  {
    var releases := SetupReleases(browserUp, r, b) + FinallyReleases(browserUp, r, b);
    match SetupFailure(browserUp, r, b)
    case Some(f) => CaptureRun(FailedResponse(r, f), [], releases)
    case None =>
      match b.newPage
      case Fail(m) => CaptureRun(FailedResponse(r, EngineError(m)), [], releases)
      case Pass =>
        var run := OnPage(r, b, defaultDelay);
        CaptureRun(run.response, run.trace, releases)
  }

  function Count(releases: seq<Release>, x: Release): nat
  {
    |set i | 0 <= i < |releases| && releases[i] == x|
  }

  /** create_context as written: when a call after new_context raises, the finally block of
      the capture has no context to close, so the opened context is never released. */
  lemma SetupFailureLeaksContext(browserUp: bool, r: ScreenshotRequest, b: Browser)
    requires ContextOpened(browserUp, b) && ConfigureFailure(r, b).Some?
    ensures ContextClosed !in FinallyReleases(browserUp, r, b)
  {
  }

  /** The smallest such capture: the browser is up, new_context succeeds and setting the
      headers raises. */
  lemma HeaderFailureLeaksContext(r: ScreenshotRequest, b: Browser)
    requires b.newContext.Pass? && b.setHeaders == Fail("Target closed")
    ensures ContextOpened(true, b) && FinallyReleases(true, r, b) == []
  {
  }

  lemma CountOne(x: Release)
    ensures Count([x], x) == 1
  {
    assert (set i | 0 <= i < 1 && [x][i] == x) == {0};
  }

  lemma CountNone(releases: seq<Release>, x: Release)
    requires x !in releases
    ensures Count(releases, x) == 0
  {
    assert (set i | 0 <= i < |releases| && releases[i] == x) == {};
  }

  lemma CountPair(x: Release, y: Release)
    requires x != y
    ensures Count([x, y], x) == 1 && Count([x, y], y) == 1
  {
    assert (set i | 0 <= i < 2 && [x, y][i] == x) == {0};
    assert (set i | 0 <= i < 2 && [x, y][i] == y) == {1};
  }

  /** With the corrected setup every handle is released exactly once on every path: the
      context when it was opened, the page when it was opened, the page before the context. */
  lemma EveryHandleReleasedOnce(browserUp: bool, r: ScreenshotRequest, b: Browser, defaultDelay: int)
    ensures var rel := Capture(browserUp, r, b, defaultDelay).releases;
      && Count(rel, ContextClosed) == (if ContextOpened(browserUp, b) then 1 else 0)
      && Count(rel, PageClosed) == (if PageOpened(browserUp, r, b) then 1 else 0)
      && (PageOpened(browserUp, r, b) ==> rel == [PageClosed, ContextClosed])
  {
    var rel := Capture(browserUp, r, b, defaultDelay).releases;
    if !ContextOpened(browserUp, b) {
      assert rel == [];
      CountNone(rel, ContextClosed);
      CountNone(rel, PageClosed);
    } else if SetupFailure(browserUp, r, b).Some? || b.newPage.Fail? {
      assert rel == [ContextClosed];
      CountOne(ContextClosed);
      CountNone(rel, PageClosed);
    } else {
      assert rel == [PageClosed, ContextClosed];
      CountPair(PageClosed, ContextClosed);
    }
  }

  /** The response shape: a failed capture has no data, a 0 x 0 size and an error text; a
      successful one has no error and carries data exactly for the base64 output format;
      both echo the request's URL and format. */
  lemma ResponseShape(browserUp: bool, r: ScreenshotRequest, b: Browser, defaultDelay: int)
    ensures var resp := Capture(browserUp, r, b, defaultDelay).response;
      && resp.url == r.url && resp.format == r.format
      && (!resp.success ==> resp.size == Size(0, 0) && resp.data.None? && resp.error.Some?)
      && (resp.success ==> resp.error.None? && (resp.data.Some? <==> r.outputFormat == "base64"))
  {
    if SetupFailure(browserUp, r, b).None? && b.newPage.Pass? {
      OnPageShape(r, b, defaultDelay);
    }
  }

  lemma OnPageShape(r: ScreenshotRequest, b: Browser, defaultDelay: int)
    ensures var resp := OnPage(r, b, defaultDelay).response;
      && resp.url == r.url && resp.format == r.format
      && (!resp.success ==> resp.size == Size(0, 0) && resp.data.None? && resp.error.Some?)
      && (resp.success ==> resp.error.None? && (resp.data.Some? <==> r.outputFormat == "base64"))
  {
    if !(r.disableAnimations && b.addStyleTag.Fail?) {
      FinishShape(r, b, RetryFrom(r, b, ScreenshotOptionsFor(r), 0).result);
    }
  }

  lemma FinishShape(r: ScreenshotRequest, b: Browser, shot: Result<Bytes, Failure>)
    ensures var resp := Finish(r, b, shot);
      && resp.url == r.url && resp.format == r.format
      && (!resp.success ==> resp.size == Size(0, 0) && resp.data.None? && resp.error.Some?)
      && (resp.success ==> resp.error.None? && (resp.data.Some? <==> r.outputFormat == "base64"))
    ensures var resp := Finish(r, b, shot);
      && (resp.success <==> shot.Ok? && b.decode(shot.value).Ok?)
      && (resp.success ==> b.decode(shot.value) == Ok(resp.size))
      && (resp.success && r.outputFormat == "base64" ==> resp.data == Some(b.base64(shot.value)))
  {
  }

  /** A capture succeeds only after a navigation that resolved to a response with a status
      below 400 and a screenshot attempt that succeeded. */
  lemma SuccessNeedsLoadedPage(browserUp: bool, r: ScreenshotRequest, b: Browser, defaultDelay: int)
    requires Capture(browserUp, r, b, defaultDelay).response.success
    ensures PageOpened(browserUp, r, b)
    ensures var nav := Navigate(r.timeout, NavFlagsOf(r), b.goto);
      nav.result.Ok? && Loaded(nav.result.value)
    ensures RetryFrom(r, b, ScreenshotOptionsFor(r), 0).result.Ok?
    ensures var shot, resp := RetryFrom(r, b, ScreenshotOptionsFor(r), 0).result, Capture(browserUp, r, b, defaultDelay).response;
      && shot.Ok? && b.decode(shot.value) == Ok(resp.size)
      && (r.outputFormat == "base64" ==> resp.data == Some(b.base64(shot.value)))
  {
    assert PageOpened(browserUp, r, b);
    var nav := Navigate(r.timeout, NavFlagsOf(r), b.goto);
    assert !(r.disableAnimations && b.addStyleTag.Fail?);
    assert nav.result.Ok? && Loaded(nav.result.value);
  }

  /** An opened page whose style tag was applied leads to navigation and what follows it. */
  lemma CaptureReachesNavigation(browserUp: bool, r: ScreenshotRequest, b: Browser, defaultDelay: int)
    requires PageOpened(browserUp, r, b) && !(r.disableAnimations && b.addStyleTag.Fail?)
    ensures var run, after := Capture(browserUp, r, b, defaultDelay),
                              AfterNavigation(r, b, defaultDelay, Navigate(r.timeout, NavFlagsOf(r), b.goto));
      run.response == after.response && run.trace == after.trace
  {
  }

  /** A navigation that resolves to no response or to a status of 400 or more ends the
      capture with "400: Failed to load URL: <status>" and no screenshot. */
  lemma BadStatusIsRejected(r: ScreenshotRequest, b: Browser, defaultDelay: int, nav: Run)
    requires nav.result.Ok? && !Loaded(nav.result.value)
    ensures var run := AfterNavigation(r, b, defaultDelay, nav);
      && !run.response.success
      && run.response.error == Some("400: " + LoadFailureDetail(nav.result.value))
      && run.trace == nav.trace
  {
    var detail := LoadFailureDetail(nav.result.value);
    assert NatToString(400) == "400" by {
      assert NatToString(4) == "4";
      assert NatToString(40) == NatToString(4) + "0";
    }
    assert ErrorText(HttpError(400, detail)) == "400: " + detail by {
      assert NatToString(400) + ": " == "400: ";
    }
  }

  /** After the navigation, the only page.goto calls are navigation's. */
  lemma AfterNavigationGotos(r: ScreenshotRequest, b: Browser, defaultDelay: int, nav: Run)
    ensures Gotos(AfterNavigation(r, b, defaultDelay, nav).trace) == Gotos(nav.trace)
  {
    if nav.result.Ok? && Loaded(nav.result.value) {
      var waits := SettleWaits(r, b, defaultDelay);
      var shots := RetryFrom(r, b, ScreenshotOptionsFor(r), 0);
      assert AfterNavigation(r, b, defaultDelay, nav).trace == nav.trace + waits + shots.events;
      SettleWaitsHaveNoGoto(r, b, defaultDelay);
      RetryEvents(r, b, ScreenshotOptionsFor(r), 0);
      GotosOfWaits(shots.events);
      GotosAppend(nav.trace, waits);
      GotosAppend(nav.trace + waits, shots.events);
    }
  }

  lemma ChainHasNoGoto(url: string)
    ensures forall i :: 0 <= i < |ContentChain(url)| ==> !ContentChain(url)[i].Goto?
  {
  }

  lemma SettleWaitsHaveNoGoto(r: ScreenshotRequest, b: Browser, defaultDelay: int)
    ensures Gotos(SettleWaits(r, b, defaultDelay)) == []
  {
    var waits := SettleWaits(r, b, defaultDelay);
    var checks := FinalContentCheck(r.smartWait, r.url, b.polls);
    ChainHasNoGoto(r.url);
    assert forall i :: 0 <= i < |checks| ==> checks[i] == ContentChain(r.url)[i];
    GotosOfWaits(waits);
  }

  /** Over a whole capture, the only page.goto calls are navigation's: at most rounds x
      strategies + 1 of them, and in the planned order. */
  lemma CaptureGotos(browserUp: bool, r: ScreenshotRequest, b: Browser, defaultDelay: int)
    ensures var trace := Capture(browserUp, r, b, defaultDelay).trace;
      var plan := Plan(r.timeout, r.aggressiveWait);
      && |Gotos(trace)| <= |plan| == MaxRetries(r.aggressiveWait) * |Strategies(r.aggressiveWait)| + 1
      && Gotos(trace) == plan[..|Gotos(trace)|]
  {
    var trace := Capture(browserUp, r, b, defaultDelay).trace;
    NavigationFollowsPlan(r.timeout, NavFlagsOf(r), b.goto);
    if PageOpened(browserUp, r, b) && !(r.disableAnimations && b.addStyleTag.Fail?) {
      CaptureReachesNavigation(browserUp, r, b, defaultDelay);
      AfterNavigationGotos(r, b, defaultDelay, Navigate(r.timeout, NavFlagsOf(r), b.goto));
    } else {
      assert trace == [];
      assert Gotos(trace) == [];
    }
  }

  // ---------------------------------------------------------------------------------------
  // The service object

  /** The service: the browser it launches lazily, once, and the minimum delay of its settings. */
  class Service {
    var browserUp: bool
    ghost var launches: nat
    const defaultDelay: int

    /** The browser is launched at most once, and is up exactly when it was. */
    ghost predicate Valid()
      reads this
    {
      launches <= 1 && (browserUp <==> launches == 1)
    }

    constructor (defaultDelay: int)
      ensures Valid() && !browserUp && launches == 0 && this.defaultDelay == defaultDelay
    {
      browserUp := false;
      launches := 0;
      this.defaultDelay := defaultDelay;
    }

    /** init_browser: launches the browser once, the first time it is needed. */
    method InitBrowser(b: Browser) returns (failure: Option<Failure>)
      requires Valid()
      modifies this
      ensures Valid()
      ensures failure == (if !old(browserUp) && b.launch.Fail? then Some(EngineError(b.launch.message)) else None)
      ensures browserUp == (old(browserUp) || b.launch.Pass?)
      ensures old(browserUp) ==> launches == old(launches)
    {
      failure := None;
      if !browserUp {
        match b.launch {
          case Fail(m) =>
            failure := Some(EngineError(m));
          case Pass =>
            browserUp := true;
            launches := launches + 1;
        }
      }
    }

    /** The browser launch and new_context with the options of the request. */
    method OpenContext(r: ScreenshotRequest, b: Browser) returns (res: Result<Context, Failure>)
      requires Valid()
      modifies this
      ensures Valid() && browserUp == (old(browserUp) || b.launch.Pass?)
      ensures res.Err? <==> OpenFailure(old(browserUp), b).Some?
      ensures res.Err? ==> res.error == OpenFailure(old(browserUp), b).value
      ensures res.Ok? ==> fresh(res.value) && res.value.options == ContextOptionsFor(r)
      ensures res.Ok? ==> res.value.extraHeaders.None? && res.value.cookies == [] && !res.value.routed
      ensures res.Ok? ==> res.value.closes == 0
    {
      var failure := InitBrowser(b);
      if failure.Some? {
        return Err(failure.value);
      }
      var options := ContextOptions(
        Size(r.width, r.height), true, true,
        Some(if HasText(r.userAgent) then r.userAgent.value else DefaultUserAgent),
        Some(true), Some("en-US"), Some("America/New_York"), Some((-74.0059, 40.7128)), Some(["geolocation"]),
        None, None, None);
      if r.mobile {
        options := options.(isMobile := Some(true), hasTouch := Some(true), deviceScaleFactor := Some(2));
      }
      match b.newContext {
        case Fail(m) =>
          return Err(EngineError(m));
        case Pass =>
          var context := new Context(options);
          return Ok(context);
      }
    }

    /** The headers, cookies and interceptor of create_context, on an opened context. */
    method ConfigureContext(context: Context, r: ScreenshotRequest, b: Browser) returns (failure: Option<Failure>)
      modifies context
      ensures failure == ConfigureFailure(r, b)
      ensures failure.None? ==>
        && context.extraHeaders == Some(MergeHeaders(DefaultHeaders, r.headers))
        && context.cookies == old(context.cookies) + CookiesOf(r)
        && context.routed == (old(context.routed) || r.blockAds)
      ensures context.closes == old(context.closes)
    {
      var headers := DefaultHeaders;
      if r.headers.Some? && r.headers.value != map[] {
        headers := headers + r.headers.value;
      }
      if b.setHeaders.Fail? {
        return Some(EngineError(b.setHeaders.message));
      }
      context.SetExtraHttpHeaders(headers);
      if HasCookies(r) {
        if b.addCookies.Fail? {
          return Some(EngineError(b.addCookies.message));
        }
        context.AddCookies(r.cookies.value);
      }
      if r.blockAds {
        if b.route.Fail? {
          return Some(EngineError(b.route.message));
        }
        context.Route();
      }
      return None;
    }

    /** create_context as written: the context it opened is handed to nobody when a later
        call raises, and stays open (`opened` is that context). */
    method CreateContext(r: ScreenshotRequest, b: Browser) returns (res: Result<Context, Failure>, ghost handle: Option<Context>)
      requires Valid()
      modifies this
      ensures Valid() && browserUp == (old(browserUp) || b.launch.Pass?)
      ensures handle.Some? <==> ContextOpened(old(browserUp), b)
      ensures handle.Some? ==> fresh(handle.value)
      ensures res.Err? <==> SetupFailure(old(browserUp), r, b).Some?
      ensures res.Err? ==> res.error == SetupFailure(old(browserUp), r, b).value
      ensures res.Err? && handle.Some? ==> handle.value.closes == 0
      ensures res.Ok? ==> handle == Some(res.value) && Configured(res.value, r) && res.value.closes == 0
    {
      var opening := OpenContext(r, b);
      if opening.Err? {
        res, handle := opening, None;
        return;
      }
      var context := opening.value;
      handle := Some(context);
      var failure := ConfigureContext(context, r, b);
      if failure.Some? {
        res := Err(failure.value);
        return;
      }
      res := Ok(context);
    }

    /** create_context closing the context it opened before re-raising a setup failure;
        `released` is what it closed. */
    method CreateContextReleasingOnError(r: ScreenshotRequest, b: Browser)
      returns (res: Result<Context, Failure>, released: seq<Release>, ghost handle: Option<Context>)
      requires Valid()
      modifies this
      ensures Valid() && browserUp == (old(browserUp) || b.launch.Pass?)
      ensures handle.Some? <==> ContextOpened(old(browserUp), b)
      ensures handle.Some? ==> fresh(handle.value)
      ensures res.Err? <==> SetupFailure(old(browserUp), r, b).Some?
      ensures res.Err? ==> res.error == SetupFailure(old(browserUp), r, b).value
      ensures released == SetupReleases(old(browserUp), r, b)
      ensures res.Err? && handle.Some? ==> handle.value.closes == 1
      ensures res.Ok? ==> handle == Some(res.value) && Configured(res.value, r) && res.value.closes == 0
    {
      released := [];
      var opening := OpenContext(r, b);
      if opening.Err? {
        res, handle := opening, None;
        return;
      }
      var context := opening.value;
      handle := Some(context);
      var failure := ConfigureContext(context, r, b);
      if failure.Some? {
        context.Close();
        released := [ContextClosed];
        res := Err(failure.value);
        return;
      }
      res := Ok(context);
    }

    /** The body of one attempt: the element lookup when there is a selector (a missing
        element raises the 400 HTTPException), then the screenshot. */
    method TryScreenshot(r: ScreenshotRequest, b: Browser, options: ScreenshotOptions, attempt: nat)
      returns (outcome: Result<Bytes, Failure>, target: Target)
      ensures target == ShotTarget(r) && outcome == ShotAttempt(r, b, options, attempt)
    {
      if r.selector.Some? && r.selector.value != "" {
        target := Element(r.selector.value);
        if !b.elementFound(attempt) {
          return Err(HttpError(400, "Element with selector '" + r.selector.value + "' not found")), target;
        }
      } else {
        target := WholePage;
      }
      outcome := Raised(b.screenshot(target, options, attempt));
    }

    /** take_screenshot_with_retry: up to three attempts with a growing sleep between them. */
    method TakeScreenshotWithRetry(r: ScreenshotRequest, b: Browser, options: ScreenshotOptions)
      returns (result: Result<Bytes, Failure>, events: seq<Event>)
      ensures Shots(result, events) == RetryFrom(r, b, options, 0)
    {
      ghost var spec := RetryFrom(r, b, options, 0);
      events := [];
      var attempt := 0;
      while true
        invariant 0 <= attempt < MaxShotAttempts
        invariant spec.result == RetryFrom(r, b, options, attempt).result
        invariant spec.events == events + RetryFrom(r, b, options, attempt).events
        decreases MaxShotAttempts - attempt
      {
        var outcome, target := TryScreenshot(r, b, options, attempt);
        RetryStep(r, b, options, attempt);
        if outcome.Ok? || attempt == MaxShotAttempts - 1 {
          return outcome, events + [Snapshot(target)];
        }
        ghost var rest := RetryFrom(r, b, options, attempt + 1);
        var pause := Sleep((1 + attempt) as real);
        PrependShots(events, Snapshot(target), pause, rest.events);
        events := events + [Snapshot(target)] + [pause];
        attempt := attempt + 1;
      }
    }

    /** Everything capture_screenshot does on the opened page. */
    method CaptureOnPage(page: Page, r: ScreenshotRequest, b: Browser) returns (response: ScreenshotResponse, trace: seq<Event>)
      modifies page
      ensures PageRun(response, trace) == OnPage(r, b, defaultDelay)
      ensures page.closes == old(page.closes)
      ensures page.styled == (old(page.styled) || (r.disableAnimations && b.addStyleTag.Pass?))
    {
      if r.disableAnimations {
        match b.addStyleTag {
          case Fail(m) =>
            return FailedResponse(r, EngineError(m)), [];
          case Pass =>
            page.AddStyleTag();
        }
      }
      var navResult, navTrace := NavigateWithRetries(r.timeout, NavFlagsOf(r), b.goto);
      response, trace := CaptureAfterNavigation(r, b, navResult, navTrace);
    }

    /** The status check, the smart delay, the final content check, the screenshot with
        retries and the response. */
    method CaptureAfterNavigation(r: ScreenshotRequest, b: Browser, navResult: Result<Option<Response>, string>, navTrace: seq<Event>)
      returns (response: ScreenshotResponse, trace: seq<Event>)
      ensures PageRun(response, trace) == AfterNavigation(r, b, defaultDelay, Run(navResult, navTrace))
    {
      trace := navTrace;
      if navResult.Err? {
        return FailedResponse(r, EngineError(navResult.error)), trace;
      }
      var navResponse := navResult.value;
      if navResponse.None? || navResponse.value.status >= 400 {
        return FailedResponse(r, HttpError(400, LoadFailureDetail(navResponse))), trace;
      }
      var effectiveDelay := SmartDelay(r.delay, defaultDelay, r.smartWait, r.extraWaitTime, b.metrics);
      if effectiveDelay > 0 {
        trace := trace + [PageWait(effectiveDelay)];
      }
      trace := trace + FinalContentCheck(r.smartWait, r.url, b.polls);
      assert trace == navTrace + SettleWaits(r, b, defaultDelay);
      var options := ScreenshotOptions(r.format, r.fullPage, None);
      if r.format == "jpeg" && r.quality.Some? && r.quality.value != 0 {
        options := options.(quality := r.quality);
      }
      assert options == ScreenshotOptionsFor(r);
      var shot, shotEvents := TakeScreenshotWithRetry(r, b, options);
      trace := trace + shotEvents;
      match shot {
        case Err(f) =>
          response := FailedResponse(r, f);
        case Ok(bytes) =>
          match b.decode(bytes) {
            case Err(m) =>
              response := FailedResponse(r, EngineError(m));
            case Ok(size) =>
              var data := None;
              if r.outputFormat == "base64" {
                data := Some(b.base64(bytes));
              }
              response := ScreenshotResponse(true, r.url, size, r.format, data, None);
          }
      }
    }

    /** new_page in the created context, the capture on it, and the page's release in the
        finally block. */
    method UseContext(c: Context, r: ScreenshotRequest, b: Browser)
      returns (response: ScreenshotResponse, trace: seq<Event>, released: seq<Release>, ghost page: Option<Page>)
      ensures b.newPage.Fail? ==>
        response == FailedResponse(r, EngineError(b.newPage.message)) && trace == [] && released == [] && page.None?
      ensures b.newPage.Pass? ==>
        && PageRun(response, trace) == OnPage(r, b, defaultDelay) && released == [PageClosed]
        && page.Some? && fresh(page.value) && page.value.closes == 1
        && page.value.styled == (r.disableAnimations && b.addStyleTag.Pass?)
    {
      match b.newPage {
        case Fail(m) =>
          return FailedResponse(r, EngineError(m)), [], [], None;
        case Pass =>
          var p := new Page(c);
          response, trace := CaptureOnPage(p, r, b);
          p.Close();
          return response, trace, [PageClosed], Some(p);
      }
    }

    /** capture_screenshot, CORRECTED: the try block, the failure response of the except
        block, and the finally block that closes the page and then the context, with the
        context set up by `CreateContextReleasingOnError` rather than the as-written
        `CreateContext`. Each handle opened is then closed exactly once. */
    method CaptureScreenshot(r: ScreenshotRequest, b: Browser)
      returns (response: ScreenshotResponse, trace: seq<Event>, releases: seq<Release>,
               ghost context: Option<Context>, ghost page: Option<Page>)
      requires Valid()
      modifies this
      ensures Valid()
      ensures CaptureRun(response, trace, releases) == Capture(old(browserUp), r, b, defaultDelay)
      ensures context.Some? <==> ContextOpened(old(browserUp), b)
      ensures context.Some? ==> context.value.closes == 1
      ensures page.Some? <==> PageOpened(old(browserUp), r, b)
      ensures page.Some? ==> page.value.closes == 1
      ensures context.Some? && SetupFailure(old(browserUp), r, b).None? ==> Configured(context.value, r)
      ensures page.Some? ==> page.value.styled == (r.disableAnimations && b.addStyleTag.Pass?)
      ensures browserUp == (old(browserUp) || b.launch.Pass?)
      ensures old(browserUp) ==> launches == old(launches)
    {
      var contextHandle: Option<Context> := None;
      trace := [];
      page := None;
      var created, cleanup, handle := CreateContextReleasingOnError(r, b);
      context := handle;
      releases := cleanup;
      match created {
        case Err(f) =>
          response := FailedResponse(r, f);
        case Ok(c) =>
          contextHandle := Some(c);
          var pageReleases;
          response, trace, pageReleases, page := UseContext(c, r, b);
          releases := releases + pageReleases;
      }
      if contextHandle.Some? {
        contextHandle.value.Close();
        releases := releases + [ContextClosed];
      }
    }
  }
}
