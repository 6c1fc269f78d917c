/**
  * The older, self-contained capture service of src/main.py, which is the one the server
  * serves: its request model, its simpler request interceptor, its navigation with four
  * strategies over two rounds, and its capture with a single screenshot attempt.
  */
module Legacy {
  import opened Common
  import opened Engine
  import opened Models
  import opened ResourcePolicy
  import opened Navigation
  import opened ScreenshotService

  // ---------------------------------------------------------------------------------------
  // The request

  /** The legacy request: the fields of the enhanced request without image blocking, the
      wait flags and the extra wait time. */
  datatype LegacyRequest = LegacyRequest(
    url: string,
    width: int,
    height: int,
    format: string,
    quality: Option<int>,
    fullPage: bool,
    delay: int,
    timeout: int,
    userAgent: Option<string>,
    headers: Option<map<string, string>>,
    cookies: Option<seq<Cookie>>,
    selector: Option<string>,
    mobile: bool,
    disableAnimations: bool,
    blockAds: bool,
    outputFormat: string)

  /** The field bounds of the legacy model, and a quality only with the jpeg format. */
  predicate LegacyValid(l: LegacyRequest)
  {
    && IsHttpUrl(l.url)
    && 320 <= l.width <= 3840
    && 240 <= l.height <= 2160
    && l.format in ImageFormats
    && (l.quality.Some? ==> 1 <= l.quality.value <= 100 && l.format == "jpeg")
    && 0 <= l.delay <= 30000
    && 5000 <= l.timeout <= 120000
    && l.outputFormat in OutputFormats
  }

  /** The legacy request as an enhanced one whose missing fields keep their defaults; the
      capture helpers whose code the two services share take it in this form. */
  function AsCore(l: LegacyRequest): ScreenshotRequest
  {
    ScreenshotRequest(
      l.url, l.width, l.height, l.format, l.quality, l.fullPage, l.delay, l.timeout,
      l.userAgent, l.headers, l.cookies, l.selector, l.mobile, l.disableAnimations, l.blockAds,
      false, l.outputFormat, true, true, false, 0)
  }

  /** The two request models agree: a legacy request is valid exactly when the enhanced
      request it stands for is, and that one keeps every legacy field. */
  lemma LegacyValidation(l: LegacyRequest)
    ensures LegacyValid(l) <==> Valid(AsCore(l))
    ensures var r := AsCore(l);
      && r.url == l.url && r.width == l.width && r.height == l.height && r.format == l.format
      && r.quality == l.quality && r.delay == l.delay && r.timeout == l.timeout
      && r.selector == l.selector && r.outputFormat == l.outputFormat && r.extraWaitTime == 0
  {
  }

  // ---------------------------------------------------------------------------------------
  // The request interceptor

  const LegacyBlockedDomains: set<string> := {
    "googletagmanager.com", "google-analytics.com", "googlesyndication.com",
    "doubleclick.net", "outbrain.com", "taboola.com", "amazon-adsystem.com",
    "scorecardresearch.com", "quantserve.com", "chartbeat.com", "parsely.com",
    "krxd.net", "adsystem.com", "ads.yahoo.com", "advertising.com",
    "bing.com/maps", "hotjar.com", "fullstory.com", "mouseflow.com"
  }

  const LegacyBlockedTypes: set<string> := {"font", "media", "other"}

  const LegacyBlockedPatterns: set<string> := {"analytics", "tracking", "advertisement", "doubleclick"}

  /** The legacy handler, first match wins: a blocked domain anywhere in the URL as it is
      (case-sensitive), a blocked resource type, a pattern in the lowercased URL. */
  function LegacyVerdict(url: string, resourceType: string): (v: Verdict)
    ensures resourceType in LegacyBlockedTypes ==> v == Block
    ensures v == Allow <==>
      && !ContainsAny(url, LegacyBlockedDomains)
      && resourceType !in LegacyBlockedTypes
      && !ContainsAny(Lower(url), LegacyBlockedPatterns)
  {
    if ContainsAny(url, LegacyBlockedDomains) then Block
    else if resourceType in LegacyBlockedTypes then Block
    else if ContainsAny(Lower(url), LegacyBlockedPatterns) then Block
    else Allow
  }

  /** Every URL that names doubleclick.net, in any letter case, is blocked whatever its
      resource type. */
  lemma LegacyBlocksDoubleclick(url: string, resourceType: string)
    requires Contains(Lower(url), "doubleclick")
    ensures LegacyVerdict(url, resourceType) == Block
  {
    assert "doubleclick" in LegacyBlockedPatterns;
  }

  /** The ad-server image that the enhanced policy lets through by default
      (ResourcePolicy.AdServerImageAllowedByDefault) is blocked by the legacy one. */
  lemma LegacyBlocksTheAdImage()
    ensures LegacyVerdict("https://ad." + "doubleclick.net" + "/banner.png", "image") == Block
  {
    assert "doubleclick.net" in LegacyBlockedDomains;
    LegacyBlocksBlockedDomain("https://ad.", "doubleclick.net", "/banner.png", "image");
  }

  /** A URL that holds a blocked domain is blocked whatever its resource type. */
  lemma LegacyBlocksBlockedDomain(before: string, domain: string, after: string, resourceType: string)
    requires domain in LegacyBlockedDomains
    ensures LegacyVerdict(before + domain + after, resourceType) == Block
  {
    ContainsMiddle(before, domain, after);
  }

  // ---------------------------------------------------------------------------------------
  // Navigation

  const LegacyStrategies: seq<WaitUntil> := [NetworkIdle, DomContentLoaded, Load, Commit]

  const LegacyRounds: nat := 2

  /** The planned attempts before the fallback: two rounds of the four strategies. */
  const LegacyAttempts: nat := 8

  /** The fallback: the engine's default wait condition and a 10 s timeout. */
  const LegacyFallback: Attempt := Attempt(None, 10000.0)

  /** The timeout of round `round`: the request's in the first, then half of it (integer
      division) capped at 15 s. */
  function LegacyTimeout(timeout: int, round: nat): (t: int)
    ensures round == 0 ==> t == timeout
    ensures round > 0 ==> t <= 15000 && t <= timeout / 2 && (t == 15000 || t == timeout / 2)
  {
    if round == 0 then timeout else Min(timeout / 2, 15000)
  }

  /** The `i`-th planned goto, counting across both rounds. */
  function LegacyAttemptAt(timeout: int, i: nat): Attempt
    requires i < LegacyAttempts
  {
    Attempt(Some(LegacyStrategies[i % 4]), LegacyTimeout(timeout, i / 4) as real)
  }

  /** Navigation from the `i`-th goto call on: a success returns its response, a failure
      sleeps one second and goes on, and the fallback's failure is re-raised. */
  function LegacyRunFrom(timeout: int, goto: nat -> GotoResult, i: nat): Run
    requires i <= LegacyAttempts
    decreases LegacyAttempts - i
  {
    if i == LegacyAttempts then
      match goto(i)
      case Navigated(response) => Run(Ok(response), [Goto(LegacyFallback)])
      case GotoFailed(message) => Run(Err(message), [Goto(LegacyFallback)])
    else
      match goto(i)
      case Navigated(response) => Run(Ok(response), [Goto(LegacyAttemptAt(timeout, i))])
      case GotoFailed(_) => Prepend([Goto(LegacyAttemptAt(timeout, i)), Sleep(1.0)], LegacyRunFrom(timeout, goto, i + 1))
  }

  function LegacyNavigate(timeout: int, goto: nat -> GotoResult): Run
  {
    LegacyRunFrom(timeout, goto, 0)
  }

  /** Every goto the legacy navigation may make, in order. */
  function LegacyPlan(timeout: int): (plan: seq<Attempt>)
    ensures |plan| == LegacyAttempts + 1 && plan[LegacyAttempts] == LegacyFallback
    ensures forall i :: 0 <= i < LegacyAttempts ==> plan[i] == LegacyAttemptAt(timeout, i)
  {
    seq(LegacyAttempts, i requires 0 <= i < LegacyAttempts => LegacyAttemptAt(timeout, i)) + [LegacyFallback]
  }

  /** The plan spelled out: the four strategies with the request timeout, the same four
      with the shortened one, then the fallback. */
  lemma LegacyPlanShape(timeout: int)
    ensures var short := Min(timeout / 2, 15000) as real;
      LegacyPlan(timeout) == [
        Attempt(Some(NetworkIdle), timeout as real), Attempt(Some(DomContentLoaded), timeout as real),
        Attempt(Some(Load), timeout as real), Attempt(Some(Commit), timeout as real),
        Attempt(Some(NetworkIdle), short), Attempt(Some(DomContentLoaded), short),
        Attempt(Some(Load), short), Attempt(Some(Commit), short),
        Attempt(None, 10000.0)]
  {
    var plan := LegacyPlan(timeout);
    assert plan[1] == LegacyAttemptAt(timeout, 1);
    assert plan[5] == LegacyAttemptAt(timeout, 5);
  }

  /** Legacy navigation from any call on walks the rest of its plan. */
  lemma {:induction false} LegacyRunFollowsPlan(timeout: int, goto: nat -> GotoResult, i: nat)
    requires i <= LegacyAttempts
    ensures FollowsPlan(LegacyRunFrom(timeout, goto, i), LegacyPlan(timeout)[i..], goto, i)
    decreases LegacyAttempts - i
  {
    var plan := LegacyPlan(timeout)[i..];
    var run := LegacyRunFrom(timeout, goto, i);
    var attempt := if i == LegacyAttempts then LegacyFallback else LegacyAttemptAt(timeout, i);
    assert plan[0] == attempt;
    match goto(i)
    case Navigated(response) =>
      assert run == Run(Ok(response), [Goto(attempt)] + []);
      FollowsPlanAtLastGoto(attempt, [], Ok(response), plan, goto, i);
    case GotoFailed(message) =>
      if i == LegacyAttempts {
        assert run == Run(Err(message), [Goto(attempt)] + []);
        FollowsPlanAtLastGoto(attempt, [], Err(message), plan, goto, i);
      } else {
        var failed := [Goto(attempt), Sleep(1.0)];
        assert Gotos(failed) == [attempt] by {
          GotosAppend([Goto(attempt)], [Sleep(1.0)]);
          assert failed == [Goto(attempt)] + [Sleep(1.0)];
        }
        LegacyRunFollowsPlan(timeout, goto, i + 1);
        assert plan == [attempt] + LegacyPlan(timeout)[i + 1..];
        FollowsPlanAfterFailure(failed, attempt, LegacyRunFrom(timeout, goto, i + 1), LegacyPlan(timeout)[i + 1..], goto, i);
      }
  }

  /** Legacy navigation makes at most nine goto calls, in the planned order, every one but
      the last failed; it raises only after all nine failed, with the fallback's error. */
  lemma LegacyNavigationFollowsPlan(timeout: int, goto: nat -> GotoResult)
    ensures var run, plan := LegacyNavigate(timeout, goto), LegacyPlan(timeout);
      && |plan| == |LegacyStrategies| * LegacyRounds + 1 == 9
      && FollowsPlan(run, plan, goto, 0)
      && |Gotos(run.trace)| <= 9
      && (run.result.Err? ==> |Gotos(run.trace)| == 9 && goto(8) == GotoFailed(run.result.error))
  {
    LegacyRunFollowsPlan(timeout, goto, 0);
  }

  /** Attempts and one-second sleeps alternate in a navigation: it starts and ends with an
      attempt, and every failed attempt is followed by exactly one 1 s sleep. */
  predicate Alternates(trace: seq<Event>)
  {
    && |trace| % 2 == 1
    && forall j :: 0 <= j < |trace| ==> (j % 2 == 0 ==> trace[j].Goto?) && (j % 2 == 1 ==> trace[j] == Sleep(1.0))
  }

  /** A failed attempt and its sleep in front of an alternating trace keep it alternating. */
  lemma AlternatesAfterFailure(a: Attempt, rest: seq<Event>)
    requires Alternates(rest)
    ensures Alternates([Goto(a), Sleep(1.0)] + rest)
  {
    var t := [Goto(a), Sleep(1.0)] + rest;
    forall j | 2 <= j < |t|
      ensures (j % 2 == 0 ==> t[j].Goto?) && (j % 2 == 1 ==> t[j] == Sleep(1.0))
    {
      assert t[j] == rest[j - 2];
      assert (j - 2) % 2 == j % 2;
    }
  }

  /** A failed planned attempt is recorded, followed by its sleep and the rest of the run. */
  lemma LegacyFailureStep(timeout: int, goto: nat -> GotoResult, i: nat)
    requires i < LegacyAttempts && goto(i).GotoFailed?
    ensures LegacyRunFrom(timeout, goto, i).trace
            == [Goto(LegacyAttemptAt(timeout, i)), Sleep(1.0)] + LegacyRunFrom(timeout, goto, i + 1).trace
  {
  }

  lemma {:induction false} LegacySleepsAlternate(timeout: int, goto: nat -> GotoResult, i: nat)
    requires i <= LegacyAttempts
    ensures Alternates(LegacyRunFrom(timeout, goto, i).trace)
    decreases LegacyAttempts - i
  {
    if i < LegacyAttempts && goto(i).GotoFailed? {
      LegacySleepsAlternate(timeout, goto, i + 1);
      LegacyFailureStep(timeout, goto, i);
      AlternatesAfterFailure(LegacyAttemptAt(timeout, i), LegacyRunFrom(timeout, goto, i + 1).trace);
    } else {
      assert |LegacyRunFrom(timeout, goto, i).trace| == 1;
    }
  }

  /** The retry timeouts: the first round uses the request timeout, the second at most
      15 s and at most half of it. */
  lemma LegacyRetryTimeouts(timeout: int)
    ensures forall i :: 0 <= i < 4 ==> LegacyPlan(timeout)[i].timeout == timeout as real
    ensures forall i :: 4 <= i < LegacyAttempts ==>
      LegacyPlan(timeout)[i].timeout <= 15000.0 && LegacyPlan(timeout)[i].timeout <= (timeout / 2) as real
  {
    forall i | 4 <= i < LegacyAttempts
      ensures LegacyPlan(timeout)[i].timeout <= 15000.0 && LegacyPlan(timeout)[i].timeout <= (timeout / 2) as real
    {
      assert i / 4 == 1;
    }
  }

  /** The goto call `calls` of round `attempt`, strategy `i`, is the planned one. */
  lemma LegacyPosition(attempt: nat, i: nat, calls: nat)
    requires attempt < LegacyRounds && i < 4 && calls == attempt * 4 + i
    ensures calls < LegacyAttempts && calls % 4 == i && calls / 4 == attempt
  {
  }

  /** _navigate_with_retries: the nested loops over rounds and strategies, a one-second
      sleep after each failure, and the fallback. */
  method LegacyNavigateWithRetries(timeout: int, goto: nat -> GotoResult)
    returns (result: Result<Option<Response>, string>, trace: seq<Event>)
    ensures Run(result, trace) == LegacyNavigate(timeout, goto)
  {
    var waitStrategies := [NetworkIdle, DomContentLoaded, Load, Commit];
    var maxRetries := 2;
    ghost var spec := LegacyNavigate(timeout, goto);
    trace := [];
    var calls := 0;
    var attempt := 0;
    while attempt < maxRetries
      invariant 0 <= attempt <= maxRetries
      invariant calls == attempt * 4
      invariant spec == Prepend(trace, LegacyRunFrom(timeout, goto, calls))
    {
      var i := 0;
      while i < |waitStrategies|
        invariant 0 <= i <= |waitStrategies|
        invariant calls == attempt * 4 + i
        invariant spec == Prepend(trace, LegacyRunFrom(timeout, goto, calls))
      {
        var done, roundResult, events := LegacyTry(timeout, goto, waitStrategies[i], attempt, i, calls);
        PrependTwice(trace, events, LegacyRunFrom(timeout, goto, calls + 1));
        trace := trace + events;
        if done {
          return roundResult, trace;
        }
        calls := calls + 1;
        i := i + 1;
      }
      attempt := attempt + 1;
    }
    match goto(calls) {
      case Navigated(response) =>
        result := Ok(response);
      case GotoFailed(message) =>
        result := Err(message);
    }
    trace := trace + [Goto(Attempt(None, 10000.0))];
  }

  /** One goto of the nested loops: its record, and on failure the one-second sleep. */
  method LegacyTry(timeout: int, goto: nat -> GotoResult, strategy: WaitUntil, attempt: nat, i: nat, calls: nat)
    returns (done: bool, result: Result<Option<Response>, string>, events: seq<Event>)
    requires attempt < LegacyRounds && i < 4 && calls == attempt * 4 + i && strategy == LegacyStrategies[i]
    ensures done ==> LegacyRunFrom(timeout, goto, calls) == Run(result, events)
    ensures !done ==> LegacyRunFrom(timeout, goto, calls) == Prepend(events, LegacyRunFrom(timeout, goto, calls + 1))
  {
    LegacyPosition(attempt, i, calls);
    var currentTimeout := if attempt == 0 then timeout else Min(timeout / 2, 15000);
    var record := Goto(Attempt(Some(strategy), currentTimeout as real));
    assert record == Goto(LegacyAttemptAt(timeout, calls));
    match goto(calls) {
      case Navigated(response) =>
        return true, Ok(response), [record];
      case GotoFailed(_) =>
        return false, Err(""), [record, Sleep(1.0)];
    }
  }

  // ---------------------------------------------------------------------------------------
  // Creating the context

  /** The keyword arguments of the legacy `new_context`: viewport and the two fixed flags,
      the user agent only when the request has one, the mobile keys only when mobile. */
  function LegacyContextOptions(l: LegacyRequest): (o: ContextOptions)
    ensures o.viewport == Size(l.width, l.height) && o.ignoreHttpsErrors && o.javaScriptEnabled
    ensures o.userAgent == (if HasText(l.userAgent) then l.userAgent else None)
    ensures o.bypassCsp.None? && o.locale.None? && o.timezoneId.None? && o.geolocation.None? && o.permissions.None?
    ensures l.mobile <==> o.isMobile.Some?
    ensures l.mobile ==> o.isMobile == Some(true) && o.hasTouch == Some(true) && o.deviceScaleFactor == Some(2)
    ensures !l.mobile ==> o.hasTouch.None? && o.deviceScaleFactor.None?
  {
    var base := ContextOptions(
      Size(l.width, l.height), true, true,
      if HasText(l.userAgent) then l.userAgent else None,
      None, None, None, None, None, None, None, None);
    if l.mobile then base.(isMobile := Some(true), hasTouch := Some(true), deviceScaleFactor := Some(2))
    else base
  }

  /** Extra headers are set only when the request has some. */
  predicate HasHeaders(l: LegacyRequest)
  {
    l.headers.Some? && l.headers.value != map[]
  }

  /** The first failure of configuring an opened legacy context: the headers, the cookies
      and the interceptor, each only when asked for. */
  function LegacyConfigureFailure(l: LegacyRequest, b: Browser): Option<Failure>
  {
    if HasHeaders(l) && b.setHeaders.Fail? then Some(EngineError(b.setHeaders.message))
    else if HasCookies(AsCore(l)) && b.addCookies.Fail? then Some(EngineError(b.addCookies.message))
    else if l.blockAds && b.route.Fail? then Some(EngineError(b.route.message))
    else None
  }

  function LegacySetupFailure(browserUp: bool, l: LegacyRequest, b: Browser): (f: Option<Failure>)
    ensures f.None? ==> ContextOpened(browserUp, b)
  {
    if OpenFailure(browserUp, b).Some? then OpenFailure(browserUp, b) else LegacyConfigureFailure(l, b)
  }

  /** A context configured for `l`: the request headers as they are (none when there are
      none), its cookies, and the interceptor only with ad blocking. */
  predicate LegacyConfigured(c: Context, l: LegacyRequest)
    reads c
  {
    && c.options == LegacyContextOptions(l)
    && c.extraHeaders == (if HasHeaders(l) then l.headers else None)
    && c.cookies == CookiesOf(AsCore(l))
    && c.routed == l.blockAds
  }

  /** Setting the headers only when asked for: a request without headers never fails there. */
  lemma NoHeadersNoHeaderFailure(l: LegacyRequest, b: Browser)
    requires !HasHeaders(l) && !HasCookies(AsCore(l)) && !l.blockAds
    ensures LegacyConfigureFailure(l, b).None?
  {
  }

  // ---------------------------------------------------------------------------------------
  // capture_screenshot

  /** The module-level settings object; `defaultDelay` is None for the class as shipped,
      which declares no such field. */
  datatype Settings = Settings(defaultDelay: Option<int>)

  const ShippedSettings: Settings := Settings(None)

  /** What reading the missing field raises. */
  const MissingDefaultDelay: Failure := EngineError("'Settings' object has no attribute 'default_delay'")

  /** The wait before the screenshot: the larger of the request delay and the default,
      recorded only when positive. */
  function DelayWaits(delay: int): (waits: seq<Event>)
    ensures waits == [] <==> delay <= 0
    ensures waits != [] ==> waits == [PageWait(delay)]
  {
    if delay > 0 then [PageWait(delay)] else []
  }

  /** What follows navigation `nav` on the legacy page: its error, the status check, the
      settings read, the delay, one screenshot attempt and the response. */
  function LegacyAfterNavigation(l: LegacyRequest, b: Browser, settings: Settings, nav: Run): PageRun
  {
    var r := AsCore(l);
    match nav.result
    case Err(m) => PageRun(FailedResponse(r, EngineError(m)), nav.trace)
    case Ok(response) =>
      if !Loaded(response) then PageRun(FailedResponse(r, HttpError(400, LoadFailureDetail(response))), nav.trace)
      else
        match settings.defaultDelay
        case None => PageRun(FailedResponse(r, MissingDefaultDelay), nav.trace)
        case Some(d) =>
          var shot := ShotAttempt(r, b, ScreenshotOptionsFor(r), 0);
          PageRun(Finish(r, b, shot), nav.trace + DelayWaits(Max(l.delay, d)) + [Snapshot(ShotTarget(r))])
  }

  /** Everything between new_page and the finally block. */
  function LegacyOnPage(l: LegacyRequest, b: Browser, settings: Settings): PageRun
  {
    if l.disableAnimations && b.addStyleTag.Fail? then PageRun(FailedResponse(AsCore(l), EngineError(b.addStyleTag.message)), [])
    else LegacyAfterNavigation(l, b, settings, LegacyNavigate(l.timeout, b.goto))
  }

  predicate LegacyPageOpened(browserUp: bool, l: LegacyRequest, b: Browser)
  {
    LegacySetupFailure(browserUp, l, b).None? && b.newPage.Pass?
  }

  /** What the finally block releases: the page if it was opened, then the context if
      create_context returned one. */
  function LegacyFinallyReleases(browserUp: bool, l: LegacyRequest, b: Browser): seq<Release>
  {
    if LegacySetupFailure(browserUp, l, b).Some? then []
    else if b.newPage.Fail? then [ContextClosed]
    else [PageClosed, ContextClosed]
  }

  /** The release the corrected create_context makes itself on a failed configuration. */
  function LegacySetupReleases(browserUp: bool, l: LegacyRequest, b: Browser): seq<Release>
  {
    if ContextOpened(browserUp, b) && LegacySetupFailure(browserUp, l, b).Some? then [ContextClosed] else []
  }

  /** The legacy capture, CORRECTED: a context opened by a setup that then fails is released
      before the error propagates, which the source's create_context does not do (see
      `LegacySetupFailureLeaksContext`). The minimum delay is read from `settings`. */
  function LegacyCapture(browserUp: bool, l: LegacyRequest, b: Browser, settings: Settings): CaptureRun
  {
    var releases := LegacySetupReleases(browserUp, l, b) + LegacyFinallyReleases(browserUp, l, b);
    match LegacySetupFailure(browserUp, l, b)
    case Some(f) => CaptureRun(FailedResponse(AsCore(l), f), [], releases)
    case None =>
      match b.newPage
      case Fail(m) => CaptureRun(FailedResponse(AsCore(l), EngineError(m)), [], releases)
      case Pass =>
        var run := LegacyOnPage(l, b, settings);
        CaptureRun(run.response, run.trace, releases)
  }

  /** An opened page whose style tag was applied leads to legacy navigation and what
      follows it. */
  lemma LegacyCaptureReachesNavigation(browserUp: bool, l: LegacyRequest, b: Browser, settings: Settings)
    requires LegacyPageOpened(browserUp, l, b) && !(l.disableAnimations && b.addStyleTag.Fail?)
    ensures var run, after := LegacyCapture(browserUp, l, b, settings),
                              LegacyAfterNavigation(l, b, settings, LegacyNavigate(l.timeout, b.goto));
      run.response == after.response && run.trace == after.trace
  {
  }

  /** With the settings class as shipped no capture succeeds: every capture that gets past
      the status check fails on the missing default delay, before any wait or screenshot. */
  lemma ShippedSettingsNeverSucceed(browserUp: bool, l: LegacyRequest, b: Browser)
    ensures !LegacyCapture(browserUp, l, b, ShippedSettings).response.success
    ensures var nav := LegacyNavigate(l.timeout, b.goto);
      LegacyPageOpened(browserUp, l, b) && !(l.disableAnimations && b.addStyleTag.Fail?)
      && nav.result.Ok? && Loaded(nav.result.value) ==>
        var run := LegacyCapture(browserUp, l, b, ShippedSettings);
        run.response.error == Some(ErrorText(MissingDefaultDelay)) && run.trace == nav.trace
  {
    var nav := LegacyNavigate(l.timeout, b.goto);
    AfterNavigationWithShippedSettings(l, b, nav);
    if LegacyPageOpened(browserUp, l, b) && !(l.disableAnimations && b.addStyleTag.Fail?) {
      LegacyCaptureReachesNavigation(browserUp, l, b, ShippedSettings);
    }
  }

  lemma AfterNavigationWithShippedSettings(l: LegacyRequest, b: Browser, nav: Run)
    ensures var run := LegacyAfterNavigation(l, b, ShippedSettings, nav);
      && !run.response.success
      && run.trace == nav.trace
      && (nav.result.Ok? && Loaded(nav.result.value) ==> run.response.error == Some(ErrorText(MissingDefaultDelay)))
  {
  }

  /** With a configured default delay, a loaded page waits `max(delay, default)` when that is
      positive, makes one screenshot attempt, and succeeds exactly when the attempt and the
      decoding do. */
  lemma ConfiguredDelayCaptures(l: LegacyRequest, b: Browser, d: int, nav: Run)
    requires nav.result.Ok? && Loaded(nav.result.value)
    ensures var run, r := LegacyAfterNavigation(l, b, Settings(Some(d)), nav), AsCore(l);
      var shot := ShotAttempt(r, b, ScreenshotOptionsFor(r), 0);
      && run.trace == nav.trace + DelayWaits(Max(l.delay, d)) + [Snapshot(ShotTarget(r))]
      && (PageWait(Max(l.delay, d)) in run.trace[|nav.trace|..] <==> l.delay > 0 || d > 0)
      && (run.response.success <==> shot.Ok? && b.decode(shot.value).Ok?)
      && (run.response.success ==> b.decode(shot.value) == Ok(run.response.size))
      && (run.response.success && l.outputFormat == "base64" ==> run.response.data == Some(b.base64(shot.value)))
  {
    var r := AsCore(l);
    var run := LegacyAfterNavigation(l, b, Settings(Some(d)), nav);
    var waits := DelayWaits(Max(l.delay, d));
    assert run.trace[|nav.trace|..] == waits + [Snapshot(ShotTarget(r))];
  }

  /** The legacy capture looks a selector up once: a missing element ends it with the 400
      not-found error after a single attempt. */
  lemma LegacyMissingElementIsReported(l: LegacyRequest, b: Browser, d: int, nav: Run)
    requires nav.result.Ok? && Loaded(nav.result.value)
    requires HasText(l.selector) && !b.elementFound(0)
    ensures var run := LegacyAfterNavigation(l, b, Settings(Some(d)), nav);
      && run.response.error == Some(ErrorText(HttpError(400, NotFoundDetail(l.selector.value))))
      && !run.response.success
      && run.trace == nav.trace + DelayWaits(Max(l.delay, d)) + [Snapshot(Element(l.selector.value))]
  {
  }

  /** The legacy response shape: a failure has no data, a 0 x 0 size and an error text; a
      success has no error and data exactly for base64 output; both echo URL and format. */
  lemma LegacyResponseShape(browserUp: bool, l: LegacyRequest, b: Browser, settings: Settings)
    ensures var resp := LegacyCapture(browserUp, l, b, settings).response;
      && resp.url == l.url && resp.format == l.format
      && (!resp.success ==> resp.size == Size(0, 0) && resp.data.None? && resp.error.Some?)
      && (resp.success ==> resp.error.None? && (resp.data.Some? <==> l.outputFormat == "base64"))
  {
    var r := AsCore(l);
    FinishShape(r, b, ShotAttempt(r, b, ScreenshotOptionsFor(r), 0));
  }

  /** A status of 400 or more, or no response, ends the legacy capture with the
      "400: Failed to load URL: ..." error and nothing after navigation. */
  lemma LegacyBadStatusIsRejected(l: LegacyRequest, b: Browser, settings: Settings, nav: Run)
    requires nav.result.Ok? && !Loaded(nav.result.value)
    ensures var run := LegacyAfterNavigation(l, b, settings, nav);
      && !run.response.success
      && run.response.error == Some("400: " + LoadFailureDetail(nav.result.value))
      && run.trace == nav.trace
  {
    BadStatusIsRejected(AsCore(l), b, 0, nav);
  }

  /** Over a whole legacy capture the only goto calls are navigation's: at most nine, in
      the planned order. */
  lemma LegacyCaptureGotos(browserUp: bool, l: LegacyRequest, b: Browser, settings: Settings)
    ensures var trace := LegacyCapture(browserUp, l, b, settings).trace;
      && |Gotos(trace)| <= 9
      && Gotos(trace) == LegacyPlan(l.timeout)[..|Gotos(trace)|]
  {
    var trace := LegacyCapture(browserUp, l, b, settings).trace;
    var nav := LegacyNavigate(l.timeout, b.goto);
    LegacyNavigationFollowsPlan(l.timeout, b.goto);
    if LegacyPageOpened(browserUp, l, b) && !(l.disableAnimations && b.addStyleTag.Fail?) {
      LegacyCaptureReachesNavigation(browserUp, l, b, settings);
      LegacyAfterNavigationGotos(l, b, settings, nav);
    } else {
      assert trace == [];
      assert Gotos(trace) == [];
    }
  }

  lemma LegacyAfterNavigationGotos(l: LegacyRequest, b: Browser, settings: Settings, nav: Run)
    ensures Gotos(LegacyAfterNavigation(l, b, settings, nav).trace) == Gotos(nav.trace)
  {
    if nav.result.Ok? && Loaded(nav.result.value) && settings.defaultDelay.Some? {
      var r := AsCore(l);
      var waits := DelayWaits(Max(l.delay, settings.defaultDelay.value));
      var tail := waits + [Snapshot(ShotTarget(r))];
      assert LegacyAfterNavigation(l, b, settings, nav).trace == nav.trace + tail;
      GotosOfWaits(tail);
      GotosAppend(nav.trace, tail);
    }
  }

  /** The legacy create_context as written: a failing header, cookie or route call leaves
      the opened context without anyone to close it. */
  lemma LegacySetupFailureLeaksContext(browserUp: bool, l: LegacyRequest, b: Browser)
    requires ContextOpened(browserUp, b) && LegacyConfigureFailure(l, b).Some?
    ensures ContextClosed !in LegacyFinallyReleases(browserUp, l, b)
  {
  }

  /** The smallest such capture: a request with cookies on a browser whose add_cookies raises. */
  lemma LegacyCookieFailureLeaksContext(l: LegacyRequest, b: Browser)
    requires HasCookies(AsCore(l)) && b.newContext.Pass? && !(HasHeaders(l) && b.setHeaders.Fail?)
    requires b.addCookies == Fail("Invalid cookie fields")
    ensures ContextOpened(true, b) && LegacyFinallyReleases(true, l, b) == []
  {
  }

  /** With the corrected setup every handle of a legacy capture is released exactly once. */
  lemma EveryLegacyHandleReleasedOnce(browserUp: bool, l: LegacyRequest, b: Browser, settings: Settings)
    ensures var rel := LegacyCapture(browserUp, l, b, settings).releases;
      && Count(rel, ContextClosed) == (if ContextOpened(browserUp, b) then 1 else 0)
      && Count(rel, PageClosed) == (if LegacyPageOpened(browserUp, l, b) then 1 else 0)
      && (LegacyPageOpened(browserUp, l, b) ==> rel == [PageClosed, ContextClosed])
  {
    var rel := LegacyCapture(browserUp, l, b, settings).releases;
    if !ContextOpened(browserUp, b) {
      assert rel == [];
      CountNone(rel, ContextClosed);
      CountNone(rel, PageClosed);
    } else if LegacySetupFailure(browserUp, l, b).Some? || b.newPage.Fail? {
      assert rel == [ContextClosed];
      CountOne(ContextClosed);
      CountNone(rel, PageClosed);
    } else {
      assert rel == [PageClosed, ContextClosed];
      CountPair(PageClosed, ContextClosed);
    }
  }

  // ---------------------------------------------------------------------------------------
  // The service object

  /** The legacy service: its lazily launched browser, and the settings it reads. */
  class LegacyService {
    var browserUp: bool
    ghost var launches: nat
    const settings: Settings

    ghost predicate Valid()
      reads this
    {
      launches <= 1 && (browserUp <==> launches == 1)
    }

    constructor (settings: Settings)
      ensures Valid() && !browserUp && launches == 0 && this.settings == settings
    {
      browserUp := false;
      launches := 0;
      this.settings := settings;
    }

    /** init_browser: launches the browser the first time it is needed. */
    method InitBrowser(b: Browser) returns (failure: Option<Failure>)
      requires Valid()
      modifies this
      ensures Valid()
      ensures failure == (if !old(browserUp) && b.launch.Fail? then Some(EngineError(b.launch.message)) else None)
      ensures browserUp == (old(browserUp) || b.launch.Pass?)
      ensures old(browserUp) ==> launches == old(launches)
    {
      failure := None;
      if !browserUp {
        match b.launch {
          case Fail(m) =>
            failure := Some(EngineError(m));
          case Pass =>
            browserUp := true;
            launches := launches + 1;
        }
      }
    }

    /** The browser launch and new_context with the legacy options. */
    method OpenContext(l: LegacyRequest, b: Browser) returns (res: Result<Context, Failure>)
      requires Valid()
      modifies this
      ensures Valid() && browserUp == (old(browserUp) || b.launch.Pass?)
      ensures res.Err? <==> OpenFailure(old(browserUp), b).Some?
      ensures res.Err? ==> res.error == OpenFailure(old(browserUp), b).value
      ensures res.Ok? ==> fresh(res.value) && res.value.options == LegacyContextOptions(l)
      ensures res.Ok? ==> res.value.extraHeaders.None? && res.value.cookies == [] && !res.value.routed
      ensures res.Ok? ==> res.value.closes == 0
    {
      var failure := InitBrowser(b);
      if failure.Some? {
        return Err(failure.value);
      }
      var options := ContextOptions(Size(l.width, l.height), true, true, None, None, None, None, None, None, None, None, None);
      if l.userAgent.Some? && l.userAgent.value != "" {
        options := options.(userAgent := l.userAgent);
      }
      if l.mobile {
        options := options.(isMobile := Some(true), hasTouch := Some(true), deviceScaleFactor := Some(2));
      }
      match b.newContext {
        case Fail(m) =>
          return Err(EngineError(m));
        case Pass =>
          var context := new Context(options);
          return Ok(context);
      }
    }

    /** The headers, cookies and interceptor of the legacy create_context. */
    method ConfigureContext(context: Context, l: LegacyRequest, b: Browser) returns (failure: Option<Failure>)
      modifies context
      ensures failure == LegacyConfigureFailure(l, b)
      ensures failure.None? ==>
        && context.extraHeaders == (if HasHeaders(l) then l.headers else old(context.extraHeaders))
        && context.cookies == old(context.cookies) + CookiesOf(AsCore(l))
        && context.routed == (old(context.routed) || l.blockAds)
      ensures context.closes == old(context.closes)
    {
      if l.headers.Some? && l.headers.value != map[] {
        if b.setHeaders.Fail? {
          return Some(EngineError(b.setHeaders.message));
        }
        context.SetExtraHttpHeaders(l.headers.value);
      }
      if l.cookies.Some? && l.cookies.value != [] {
        if b.addCookies.Fail? {
          return Some(EngineError(b.addCookies.message));
        }
        context.AddCookies(l.cookies.value);
      }
      if l.blockAds {
        if b.route.Fail? {
          return Some(EngineError(b.route.message));
        }
        context.Route();
      }
      return None;
    }

    /** The legacy create_context as written: the context it opened stays open when a later
        call raises (`handle` is that context). */
    method CreateContext(l: LegacyRequest, b: Browser) returns (res: Result<Context, Failure>, ghost handle: Option<Context>)
      requires Valid()
      modifies this
      ensures Valid() && browserUp == (old(browserUp) || b.launch.Pass?)
      ensures handle.Some? <==> ContextOpened(old(browserUp), b)
      ensures handle.Some? ==> fresh(handle.value)
      ensures res.Err? <==> LegacySetupFailure(old(browserUp), l, b).Some?
      ensures res.Err? ==> res.error == LegacySetupFailure(old(browserUp), l, b).value
      ensures res.Err? && handle.Some? ==> handle.value.closes == 0
      ensures res.Ok? ==> handle == Some(res.value) && LegacyConfigured(res.value, l) && res.value.closes == 0
    {
      var opening := OpenContext(l, b);
      if opening.Err? {
        res, handle := opening, None;
        return;
      }
      var context := opening.value;
      handle := Some(context);
      var failure := ConfigureContext(context, l, b);
      if failure.Some? {
        res := Err(failure.value);
        return;
      }
      res := Ok(context);
    }

    /** The legacy create_context closing the context it opened before re-raising. */
    method CreateContextReleasingOnError(l: LegacyRequest, b: Browser)
      returns (res: Result<Context, Failure>, released: seq<Release>, ghost handle: Option<Context>)
      requires Valid()
      modifies this
      ensures Valid() && browserUp == (old(browserUp) || b.launch.Pass?)
      ensures handle.Some? <==> ContextOpened(old(browserUp), b)
      ensures handle.Some? ==> fresh(handle.value)
      ensures res.Err? <==> LegacySetupFailure(old(browserUp), l, b).Some?
      ensures res.Err? ==> res.error == LegacySetupFailure(old(browserUp), l, b).value
      ensures released == LegacySetupReleases(old(browserUp), l, b)
      ensures res.Err? && handle.Some? ==> handle.value.closes == 1
      ensures res.Ok? ==> handle == Some(res.value) && LegacyConfigured(res.value, l) && res.value.closes == 0
    {
      released := [];
      var opening := OpenContext(l, b);
      if opening.Err? {
        res, handle := opening, None;
        return;
      }
      var context := opening.value;
      handle := Some(context);
      var failure := ConfigureContext(context, l, b);
      if failure.Some? {
        context.Close();
        released := [ContextClosed];
        res := Err(failure.value);
        return;
      }
      res := Ok(context);
    }

    /** Everything the legacy capture does on the opened page. */
    method CaptureOnPage(page: Page, l: LegacyRequest, b: Browser) returns (response: ScreenshotResponse, trace: seq<Event>)
      modifies page
      ensures PageRun(response, trace) == LegacyOnPage(l, b, settings)
      ensures page.closes == old(page.closes)
      ensures page.styled == (old(page.styled) || (l.disableAnimations && b.addStyleTag.Pass?))
    {
      if l.disableAnimations {
        match b.addStyleTag {
          case Fail(m) =>
            return FailedResponse(AsCore(l), EngineError(m)), [];
          case Pass =>
            page.AddStyleTag();
        }
      }
      var navResult, navTrace := LegacyNavigateWithRetries(l.timeout, b.goto);
      response, trace := CaptureAfterNavigation(l, b, navResult, navTrace);
    }

    /** The status check, the delay, the single screenshot attempt and the response. */
    method CaptureAfterNavigation(l: LegacyRequest, b: Browser, navResult: Result<Option<Response>, string>, navTrace: seq<Event>)
      returns (response: ScreenshotResponse, trace: seq<Event>)
      ensures PageRun(response, trace) == LegacyAfterNavigation(l, b, settings, Run(navResult, navTrace))
    {
      var r := AsCore(l);
      trace := navTrace;
      if navResult.Err? {
        return FailedResponse(r, EngineError(navResult.error)), trace;
      }
      var navResponse := navResult.value;
      if navResponse.None? || navResponse.value.status >= 400 {
        return FailedResponse(r, HttpError(400, LoadFailureDetail(navResponse))), trace;
      }
      if settings.defaultDelay.None? {
        return FailedResponse(r, MissingDefaultDelay), trace;
      }
      var effectiveDelay := Max(l.delay, settings.defaultDelay.value);
      if effectiveDelay > 0 {
        trace := trace + [PageWait(effectiveDelay)];
      }
      var options := ScreenshotOptions(l.format, l.fullPage, None);
      if l.format == "jpeg" && l.quality.Some? && l.quality.value != 0 {
        options := options.(quality := l.quality);
      }
      assert options == ScreenshotOptionsFor(r);
      var target := WholePage;
      var shot: Result<Bytes, Failure>;
      if l.selector.Some? && l.selector.value != "" {
        target := Element(l.selector.value);
        if !b.elementFound(0) {
          shot := Err(HttpError(400, "Element with selector '" + l.selector.value + "' not found"));
        } else {
          shot := Raised(b.screenshot(target, options, 0));
        }
      } else {
        shot := Raised(b.screenshot(target, options, 0));
      }
      assert shot == ShotAttempt(r, b, options, 0);
      trace := trace + [Snapshot(target)];
      match shot {
        case Err(f) =>
          response := FailedResponse(r, f);
        case Ok(bytes) =>
          match b.decode(bytes) {
            case Err(m) =>
              response := FailedResponse(r, EngineError(m));
            case Ok(size) =>
              var data := None;
              if l.outputFormat == "base64" {
                data := Some(b.base64(bytes));
              }
              response := ScreenshotResponse(true, l.url, size, l.format, data, None);
          }
      }
    }

    /** new_page in the created context, the capture on it, and the page's release in the
        finally block. */
    method UseContext(c: Context, l: LegacyRequest, b: Browser)
      returns (response: ScreenshotResponse, trace: seq<Event>, released: seq<Release>, ghost page: Option<Page>)
      ensures b.newPage.Fail? ==>
        response == FailedResponse(AsCore(l), EngineError(b.newPage.message)) && trace == [] && released == [] && page.None?
      ensures b.newPage.Pass? ==>
        && PageRun(response, trace) == LegacyOnPage(l, b, settings) && released == [PageClosed]
        && page.Some? && fresh(page.value) && page.value.closes == 1
        && page.value.styled == (l.disableAnimations && b.addStyleTag.Pass?)
    {
      match b.newPage {
        case Fail(m) =>
          return FailedResponse(AsCore(l), EngineError(m)), [], [], None;
        case Pass =>
          var p := new Page(c);
          response, trace := CaptureOnPage(p, l, b);
          p.Close();
          return response, trace, [PageClosed], Some(p);
      }
    }

    /** The legacy capture_screenshot, CORRECTED: the try block, the failure response of the
        except block, and the finally block that closes the page and then the context, with
        the context set up by `CreateContextReleasingOnError` rather than the as-written
        `CreateContext`. */
    method CaptureScreenshot(l: LegacyRequest, b: Browser)
      returns (response: ScreenshotResponse, trace: seq<Event>, releases: seq<Release>,
               ghost context: Option<Context>, ghost page: Option<Page>)
      requires Valid()
      modifies this
      ensures Valid()
      ensures CaptureRun(response, trace, releases) == LegacyCapture(old(browserUp), l, b, settings)
      ensures context.Some? <==> ContextOpened(old(browserUp), b)
      ensures context.Some? ==> context.value.closes == 1
      ensures page.Some? <==> LegacyPageOpened(old(browserUp), l, b)
      ensures page.Some? ==> page.value.closes == 1
      ensures context.Some? && LegacySetupFailure(old(browserUp), l, b).None? ==> LegacyConfigured(context.value, l)
      ensures page.Some? ==> page.value.styled == (l.disableAnimations && b.addStyleTag.Pass?)
      ensures browserUp == (old(browserUp) || b.launch.Pass?)
      ensures old(browserUp) ==> launches == old(launches)
    {
      var contextHandle: Option<Context> := None;
      trace := [];
      page := None;
      var created, cleanup, handle := CreateContextReleasingOnError(l, b);
      context := handle;
      releases := cleanup;
      match created {
        case Err(f) =>
          response := FailedResponse(AsCore(l), f);
        case Ok(c) =>
          contextHandle := Some(c);
          var pageReleases;
          response, trace, pageReleases, page := UseContext(c, l, b);
          releases := releases + pageReleases;
      }
      if contextHandle.Some? {
        contextHandle.value.Close();
        releases := releases + [ContextClosed];
      }
    }
  }
}
