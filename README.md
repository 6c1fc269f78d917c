# webss capture orchestration, modelled in Dafny

webss is a screenshot service built on Playwright. A request names a URL, a viewport, an
image format and a set of wait and blocking flags. The service opens a browser context and a
page, intercepts sub-resources, navigates with retries, waits for the page to settle, takes
the screenshot, and answers with a response record. In a `finally` block it releases the page
and the context.

The repository holds two versions of this engine, and this project models both:

- the enhanced engine in `src/core/`, in modules `Models`, `ResourcePolicy`, `ContentChecker`,
  `Navigation` and `ScreenshotService`;
- the older self-contained service of `src/main.py`, in module `Legacy`. This is the one the
  server actually serves.

Playwright is not modelled as code. It is an oracle value `Engine.Browser` that fixes the
outcome of every engine call:

- launch, `new_context`, `new_page` and `add_style_tag`;
- the header, cookie and route calls;
- the n-th `page.goto` and the n-th element lookup and screenshot;
- the page metrics and the polls of the waits;
- image decoding and base64 encoding.

Every sleep, wait, `goto` and screenshot attempt is recorded, in order, in a trace
(`seq<Engine.Event>`), so counts, ordering and bounds can be stated. Two classes carry ghost
close counters:

- `Engine.Context` has its options, its extra headers, its cookies, a `routed` flag and a
  `closes` counter;
- `Engine.Page` has a `styled` flag and a `closes` counter.

"Released exactly once" is stated as `closes == 1`.

The sources are mixed in form, and the model follows each part:

- The request models, the interception policies and the delay formula are pure, and are
  pure functions here.
- The navigation loops are `method`s with `while` loops. So are the screenshot retry loop,
  the page scripts' counting loops and the capture sequence with its `finally`. Each method
  is proved equal to a recursive specification function (`Navigate`, `RetryFrom`,
  `ImagesReady`, `Capture`, ...), and the lemmas about that function state what the source
  promises.
- Each service is a class with the lazily launched browser as its state.

Python details are written out explicitly:

- `x in s` on strings is substring containment (`Common.Contains`);
- `str.lower` is ASCII lowercasing;
- `//` is integer division;
- truthiness of `None`, `""`, `{}` and `[]` (`HasText`, `HasCookies`, `HasHeaders`);
- `str(HTTPException)` is `"<status>: <detail>"` (`Engine.ErrorText`).

The enhanced service reads `settings.default_delay` from a settings object its caller passes
in (src/core/screenshot_service.py:26-28). Here that value is a constructor parameter of
`ScreenshotService.Service`.

## Model

| member | source | states |
|---|---|---|
| Models.Validate | src/core/models.py:10-38 | A request is accepted exactly when its URL is an http or https URL with a host, every field bound holds and the jpeg-only quality rule holds, and it is then returned unchanged. A rejection lists at least one error, and names the URL, width, height and quality-without-jpeg errors when those fields are at fault. |
| Models.HttpUrlsAccepted | src/core/models.py:11 | `http://example.com` and `https://example.com` are accepted URLs. |
| Models.NonHttpUrlsRejected | src/core/models.py:11 | `invalid-url`, `ftp://example.com` and `https://` (no host) are rejected URLs. |
| Models.FtpRequestRefused | src/core/models.py:11 | A default request for `ftp://example.com` is refused with exactly the URL error. |
| Models.BoundaryRequests | src/core/models.py:12-38 | For any http URL: 319, 3841, 239 and 2161 are rejected, and 320x240, 1024x768 and 3840x2160 are accepted. gif is rejected. A quality is rejected for png, and quality 80 is accepted for jpeg while 0 is not. A png request with quality 80 is refused with exactly the quality-without-jpeg error. |
| Models.DefaultRequestIsValid | src/core/models.py:12-31 | The all-defaults request for an http URL is valid: 1920x1080, png, no quality, delay 0, timeout 30000, no extra wait, and the default flags. |
| ResourcePolicy.HandleRequest | src/core/resource_handler.py:61-97 | With `block_images` off, image and media requests are allowed before any list check. Otherwise a block-list hit in the lowercased URL blocks any type, and `other` is always blocked. A type outside the image, asset and always-block sets is blocked exactly on a list hit. Images fall through to the image rule. |
| ResourcePolicy.ImageVerdict | src/core/resource_handler.py:99-127 | An unparsable URL or frame URL is allowed (fails open), and a netloc containing a trusted domain is allowed. So is a netloc equal to the page's or a subdomain of it. For a parsed URL that is neither trusted nor first-party, the verdict is Block exactly when the lowercased URL contains an explicit ad indicator. |
| ResourcePolicy.ThirdPartyBannerBlocked | src/core/resource_handler.py:61-121 | With image blocking on, the image `http://a.net/ad/` on a page of `http://b.net/` passes the lists, is neither trusted nor same-site, and is blocked for its `/ad/` indicator. |
| ResourcePolicy.HttpNetloc | src/core/resource_handler.py:102-103 | The netloc of `http://host/path`, for a host of lower-case letters and dots, is the host. |
| ResourcePolicy.AssetVerdict | src/core/resource_handler.py:129-141 | A font or stylesheet is blocked exactly when its URL parses and its netloc contains a blocked domain; a parse error allows. |
| ResourcePolicy.NetlocOccursInUrl | src/core/resource_handler.py:132 | For a URL without tab, CR or LF, the netloc `urlparse` extracts is a substring of the URL itself. |
| ResourcePolicy.BlockedDomainsAreLowerCase | src/core/resource_handler.py:16-24 | Every blocked domain is already lower case. |
| ResourcePolicy.NetlocHitIsUrlHit | src/core/resource_handler.py:72-74 | For a URL without tab, CR or LF, a blocked domain inside the netloc is also inside the lowercased URL, so the list check at line 72 catches it first. |
| ResourcePolicy.AssetRuleAllowsWhatReachesIt | src/core/resource_handler.py:129-141 | For a URL without tab, CR or LF, every font or stylesheet that survives the list checks is allowed by the asset rule: its block branch is unreachable. |
| ResourcePolicy.FontsAndStylesheetsFollowTheLists | src/core/resource_handler.py:63-94 | For fonts and stylesheets whose URL has no tab, CR or LF, the whole verdict is "blocked exactly on a list hit". |
| ResourcePolicy.MalformedImageUrlIsAllowed | src/core/resource_handler.py:124-127 | With image blocking on, an image that passes the lists but whose URL or frame URL fails to parse is allowed. |
| ResourcePolicy.UnbalancedBracketFailsOpen | src/core/resource_handler.py:101-102 | `a://[/` is a URL whose netloc raises (an unbalanced bracket). |
| ResourcePolicy.AdServerImageAllowedByDefault | src/core/resource_handler.py:66-69 | A doubleclick.net banner image is allowed when `block_images` is off, whatever the frame. |
| ContentChecker.ComplexityScore | src/core/content_checker.py:129-135 | The score is at least 2 per iframe and at most 70 plus 2 per iframe, and at most 55 plus 2 per iframe without React, Angular or Vue. |
| ContentChecker.JQueryAddsNothing | src/core/content_checker.py:121-135 | Flipping jQuery's presence leaves the score unchanged. |
| ContentChecker.ScriptAndStyleCaps | src/core/content_checker.py:130-131 | Scripts add between 0 and 20 to the score, styles between 0 and 10. |
| ContentChecker.ImageAndNodeCaps | src/core/content_checker.py:132-135 | Images add between 0 and 10, DOM nodes between 0 and 15. |
| ContentChecker.ComplexityFloor | src/core/content_checker.py:145-150 | The floor is one of 0, 3000, 5000 or 8000, and it is positive exactly when the score exceeds 15. |
| ContentChecker.FloorsAreNotAdditive | src/core/content_checker.py:145-150 | Above 15 the floored base is `max(base, floor)`, and at or below 15 it is the base. It never exceeds `max(base, 8000)`: the floors do not add up. |
| ContentChecker.FlooredDelayMonotone | src/core/content_checker.py:145-150 | A higher score never gives a lower floored base. |
| ContentChecker.SmartDelay | src/core/content_checker.py:104-167 | The delay never exceeds 30000. With smart wait off, or a failed evaluation, it is exactly `min(max(delay, default) + extra, 30000)`. It is never below that and never above `min(max(delay, default, 8000) + extra, 30000)`. |
| ContentChecker.SmartDelayMonotoneInScore | src/core/content_checker.py:141-150 | With smart wait on, the delay is non-decreasing in the complexity score. |
| ContentChecker.VeryComplexPageFloor | src/core/content_checker.py:145-167 | A score above 50 gives at least `min(8000 + extra, 30000)`. |
| ContentChecker.CheckImages | src/core/content_checker.py:25-46 | The counting loop's answer equals the image readiness predicate. |
| ContentChecker.ImagesReadyCounts | src/core/content_checker.py:27-44 | Images are ready exactly when there are none or at least 70% count as loaded, and all loaded means ready. |
| ContentChecker.CheckLazyContent | src/core/content_checker.py:49-77 | The loop over lazy elements answers the lazy-content readiness predicate. |
| ContentChecker.LazyContentReadyIffNothingLoading | src/core/content_checker.py:52-72 | Lazy content is ready exactly when no element is still loading, and each element that is still loading matches one of the lazy selectors. |
| ContentChecker.Thumbnails | src/core/content_checker.py:84 | Every selected image is a thumbnail, and each image occurs among the thumbnails exactly as often as among the images when it is a thumbnail, and not at all otherwise. |
| ContentChecker.CheckThumbnails | src/core/content_checker.py:81-96 | The thumbnail loop answers the thumbnail readiness predicate. |
| ContentChecker.ThumbnailsReadyCounts | src/core/content_checker.py:84-94 | Thumbnails are ready exactly when there are none or at least 80% are loaded, and a page without thumbnails is ready. |
| ContentChecker.NoThumbnails | src/core/content_checker.py:84-85 | A page without thumbnail images selects no thumbnails. |
| ContentChecker.FinalContentCheck | src/core/content_checker.py:17-102 | With smart wait off, nothing is waited for. Otherwise the waits are a non-empty prefix of the image, lazy and (on YouTube URLs only) thumbnail chain. Every wait before the last resolved, and a chain cut short ends at the first one that timed out: one `try` swallows it. |
| Navigation.Strategies | src/core/navigation.py:23-35 | The table has four strategies, or six when aggressive. |
| Navigation.MaxRetries | src/core/navigation.py:37 | There are at least two rounds. |
| Navigation.AttemptTimeout | src/core/navigation.py:43-44 | Round 0 uses `timeout x multiplier`. Later rounds use at most 20000 and at most `0.7 x timeout x multiplier`. |
| Navigation.StrategyBackoff | src/core/navigation.py:99 | The backoff after strategy i is between 1 and 3 seconds, and 3 from index 4 on. |
| Navigation.RoundPause | src/core/navigation.py:101-105 | The pause after the first round is 2 seconds, and each later round's pause is 2 seconds longer than the previous one's, so every pause is at least 2 seconds. |
| Navigation.NavigationSleeps | src/core/navigation.py:39-105 | Attempt g uses strategy g % T of round g / T, where T is the number of strategies. A goto that is not the last is followed at once by the backoff of its strategy. That backoff is followed by the round's pause exactly when the goto is the round's last strategy and the round is not the last round. No sleep comes after the goto that succeeds, or after the fallback. |
| Navigation.AfterRound | src/core/navigation.py:101-105 | A round is followed by exactly one pause, of that round's length, unless it is the last round, which is followed by none. |
| Navigation.AfterSuccess | src/core/navigation.py:63-77 | The waits after a successful goto contain no goto. The 8000 ms readiness wait is there exactly with smart wait. The 5000 ms network-idle wait is there exactly when that flag is set and the strategy is not networkidle. |
| Navigation.NavigateWithRetries | src/core/navigation.py:19-132 | The nested loops return exactly the result and trace of the navigation specification. |
| Navigation.TryRound | src/core/navigation.py:39-105 | One round of the loop either ends navigation with the specification's result, or leaves the rest of the specification to the next round. |
| Navigation.TryFallback | src/core/navigation.py:107-132 | The fallback block returns the specification's fallback run. |
| Navigation.RoundPlan | src/core/navigation.py:39-44 | A round plans one attempt per strategy. |
| Navigation.RunFollowsPlan | src/core/navigation.py:39-132 | From any position, the gotos made are a prefix of the remaining plan. Every goto but the last failed, and the result is the outcome of the last. |
| Navigation.RoundsFromLength | src/core/navigation.py:39-40 | The rounds from `round` on plan `(rounds - round) x strategies` attempts. |
| Navigation.LaterRoundsAreCapped | src/core/navigation.py:43-44 | Every attempt after the first round has a timeout of at most 20000. |
| Navigation.PlanShape | src/core/navigation.py:23-61 | Plan entries follow the table in order, round after round, with their timeouts. The retries are capped at 20000, and the last entry is the commit fallback with 15000 ms. |
| Navigation.NavigationFollowsPlan | src/core/navigation.py:107-132 | The plan has `rounds x strategies + 1` entries. Navigation walks a prefix of it, so there are at most that many gotos. An error is raised only after every goto failed, and it is the fallback's error. |
| Navigation.EveryAttemptFailing | src/core/navigation.py:125-132 | When every goto fails, navigation raises after 9 gotos, or 19 when aggressive. |
| Navigation.CheckContentReadiness | src/core/navigation.py:134-187 | The readiness script's loops answer the readiness predicate. |
| Navigation.ReadinessImageRule | src/core/navigation.py:160-180 | With at most 3 images, readiness does not depend on image state. With more, readiness needs at least 70% loaded. |
| Navigation.LoadingIndicatorsReduce | src/core/navigation.py:144-155 | A loading indicator is visible exactly when a rendered element carries a loading marker, and each such element matches one of the loading selectors. |
| Navigation.ClassTokenIsSubstring | src/core/navigation.py:144-146 | A class token is a substring of the class attribute, so the `.loading` selector is subsumed by `[class*="loading"]`. |
| Dom.SeventyPercent | src/core/content_checker.py:44 | `loaded / total >= 0.7` on a positive total is the integer test `10 x loaded >= 7 x total`. |
| Dom.EightyPercent | src/core/content_checker.py:94 | `loaded / total >= 0.8` on a positive total is the integer test `5 x loaded >= 4 x total`. |
| ScreenshotService.ContextOptionsFor | src/core/screenshot_service.py:82-105 | The options carry the viewport and the two fixed flags. The user agent is the request's when truthy, else the fixed default. The mobile keys (scale factor 2) are present exactly for mobile requests. The CSP bypass is on. The locale is en-US and the time zone America/New_York. The geolocation is (-74.0059, 40.7128), with the geolocation permission. |
| ScreenshotService.MergeHeaders | src/core/screenshot_service.py:110-125 | The keys are the defaults' and the request's. A request header overrides its default key by key, and untouched defaults keep their values. |
| ScreenshotService.ScreenshotOptionsFor | src/core/screenshot_service.py:250-256 | Type and full-page come from the request. A quality is passed exactly for jpeg with a non-zero quality set, and it is the request's. |
| ScreenshotService.ValidQualityReachesScreenshot | src/core/screenshot_service.py:255-256 | For a valid request, the screenshot quality is exactly the request's quality. |
| ScreenshotService.SetupFailure | src/core/screenshot_service.py:77-135 | A setup without failure has an opened context. |
| ScreenshotService.RetryFrom | src/core/screenshot_service.py:175-203 | The retry loop from any attempt records at least one event, and its first event is an attempt on the request's target. |
| ScreenshotService.RetryEvents | src/core/screenshot_service.py:180-203 | The retry loop records only screenshot attempts and sleeps, at most `2 x attempts left - 1` of them. |
| ScreenshotService.RetrySchedule | src/core/screenshot_service.py:178-203 | There are at most three attempts, and the first success is returned. The sleeps are 1 s then 2 s, and the third attempt's failure is the one raised. |
| ScreenshotService.MissingElementIsRetried | src/core/screenshot_service.py:182-197 | An element missing at the first lookup and present at the second is captured: a missing element is retried. |
| ScreenshotService.MissingElementIsReported | src/core/screenshot_service.py:184-188 | An element that stays missing ends in the 400 not-found error after 3 attempts and 2 sleeps. |
| ScreenshotService.SetupFailureLeaksContext | src/core/screenshot_service.py:107-135 | As written, a failure after `new_context` leaves the opened context unreleased by the `finally` block. |
| ScreenshotService.HeaderFailureLeaksContext | src/core/screenshot_service.py:125 | A concrete case: the header call raises, and nothing is released. |
| ScreenshotService.EveryHandleReleasedOnce | src/core/screenshot_service.py:308-312 | With the corrected setup, the context is released exactly once when it was opened. The page is released exactly once when opened, and before the context. |
| ScreenshotService.ResponseShape | src/core/screenshot_service.py:281-306 | A failure has no data, a 0x0 size and an error text. A success has no error and carries data exactly for base64 output. Both echo the URL and format. |
| ScreenshotService.OnPageShape | src/core/screenshot_service.py:216-306 | The same response shape holds for everything that happens on an opened page. |
| ScreenshotService.FinishShape | src/core/screenshot_service.py:264-306 | The same response shape holds for the response built from a screenshot attempt. It succeeds exactly when the attempt and decoding succeed. A success reports the decoded size of the captured bytes, and for base64 output their base64 encoding. |
| ScreenshotService.SuccessNeedsLoadedPage | src/core/screenshot_service.py:219-270 | A successful capture had an opened page, a navigation with a response below 400, and a successful screenshot. Its size is the decoded size of those screenshot bytes, and for base64 output its data is their base64 encoding. |
| ScreenshotService.BadStatusIsRejected | src/core/screenshot_service.py:227-231 | No response, or a status of 400 or more, ends the capture with "400: Failed to load URL: ..." and nothing after navigation. |
| ScreenshotService.AfterNavigationGotos | src/core/screenshot_service.py:233-261 | After navigation no further goto is made. |
| ScreenshotService.SettleWaitsHaveNoGoto | src/core/screenshot_service.py:233-247 | The delay and the content checks make no goto. |
| ScreenshotService.CaptureGotos | src/core/screenshot_service.py:205-312 | A whole capture makes at most `rounds x strategies + 1` gotos, in the planned order. |
| ScreenshotService.Service.constructor | src/core/screenshot_service.py:26-31 | A new service has no browser and the given default delay. |
| ScreenshotService.Service.InitBrowser | src/core/screenshot_service.py:33-75 | The browser is launched only when none is up, and at most once; a failed launch raises. |
| ScreenshotService.Service.OpenContext | src/core/screenshot_service.py:79-107 | The method fails exactly on a launch or `new_context` failure. Otherwise it returns a fresh context with the request's options, no headers, no cookies, no route and no close. |
| ScreenshotService.Service.ConfigureContext | src/core/screenshot_service.py:109-133 | The method fails with the first failing call. Otherwise the context has the merged headers, the request's cookies, and a route exactly with ad blocking. |
| ScreenshotService.Service.CreateContext | src/core/screenshot_service.py:77-135 | As written: the method raises exactly the setup failure, and a context opened before the failure is left unclosed and is not returned. |
| ScreenshotService.Service.CreateContextReleasingOnError | src/core/screenshot_service.py:77-135 | Corrected: the same result, but a context opened before a failure is closed once before the failure is re-raised. |
| ScreenshotService.Service.TryScreenshot | src/core/screenshot_service.py:181-192 | One attempt aims at the request's target and has the specification's outcome. |
| ScreenshotService.Service.TakeScreenshotWithRetry | src/core/screenshot_service.py:175-203 | The retry loop returns exactly the retry specification's result and events. |
| ScreenshotService.Service.CaptureOnPage | src/core/screenshot_service.py:214-261 | Work on an opened page yields the specification's page run and does not close the page. The page becomes styled exactly when animations are disabled and `add_style_tag` succeeds; a page already styled stays so. |
| ScreenshotService.Service.CaptureAfterNavigation | src/core/screenshot_service.py:227-288 | What follows navigation yields the specification's run for that navigation. |
| ScreenshotService.Service.UseContext | src/core/screenshot_service.py:213-310 | A failing `new_page` gives its failure with nothing to release. Otherwise the page run is the specification's and the page is closed exactly once. The page is styled exactly when animations are disabled and `add_style_tag` succeeds. |
| ScreenshotService.Service.CaptureScreenshot | src/core/screenshot_service.py:205-312 | Corrected (see "## Findings"): with the context setup that releases on error, the response, trace and releases equal the capture specification, and the context and the page are each closed exactly once when opened. After a setup without failure, the context carries the request's options, merged headers and cookies, and it has the route exactly when `block_ads` is on. The page is styled exactly when animations are disabled and `add_style_tag` succeeds. The browser is up afterwards exactly when it was before or its launch succeeded, and an up browser is not launched again. As written, a failed setup leaks the context (`SetupFailureLeaksContext`). |
| Legacy.LegacyValidation | src/main.py:38-61 | A legacy request (URL included) is valid exactly when the enhanced request it stands for is, and that request keeps every legacy field. |
| Legacy.LegacyVerdict | src/main.py:230-261 | font, media and other are always blocked. A request is allowed exactly when its raw URL contains no blocked domain, its type is not blocked, and its lowercased URL contains no pattern. |
| Legacy.LegacyBlocksDoubleclick | src/main.py:257-259 | Any URL naming doubleclick, in any letter case, is blocked whatever its type. |
| Legacy.LegacyBlocksBlockedDomain | src/main.py:247-249 | A URL containing a blocked domain is blocked whatever its type. |
| Legacy.LegacyBlocksTheAdImage | src/main.py:247-249 | The doubleclick.net banner image, which the enhanced policy allows by default, is blocked. |
| Legacy.LegacyTimeout | src/main.py:180 | The first round uses the request timeout. The second uses `min(timeout // 2, 15000)`. |
| Legacy.LegacyPlan | src/main.py:173-219 | The plan is the 8 strategy attempts of the two rounds followed by the 10000 ms fallback. |
| Legacy.LegacyPlanShape | src/main.py:173-219 | The plan spelled out: networkidle, domcontentloaded, load and commit with the request timeout, then the same with the shortened one, then no wait condition at 10000 ms. |
| Legacy.LegacyRunFollowsPlan | src/main.py:176-228 | From any call on, the gotos are a prefix of the remaining plan, and every goto but the last failed. |
| Legacy.LegacyNavigationFollowsPlan | src/main.py:171-228 | There are at most 9 gotos, in the planned order. An error comes only after 9 failures, and it is the fallback's error. |
| Legacy.LegacySleepsAlternate | src/main.py:204-214 | Attempts and 1 s sleeps alternate, starting and ending with an attempt: exactly one sleep per failed attempt. |
| Legacy.LegacyRetryTimeouts | src/main.py:180 | The first four attempts use the request timeout, and the next four use at most 15000 and at most half of it. |
| Legacy.LegacyNavigateWithRetries | src/main.py:171-228 | The nested loops return exactly the legacy navigation specification's result and trace. |
| Legacy.LegacyTry | src/main.py:177-214 | One attempt either ends navigation as the specification does, or records the attempt and its sleep ahead of the rest. |
| Legacy.LegacyContextOptions | src/main.py:136-153 | Viewport and the two fixed flags are set. A user agent is passed only when truthy, and the mobile keys only for mobile requests. |
| Legacy.LegacySetupFailure | src/main.py:132-169 | A setup without failure has an opened context. |
| Legacy.NoHeadersNoHeaderFailure | src/main.py:157-167 | Without headers, cookies or ad blocking, configuration makes no call that can fail. |
| Legacy.DelayWaits | src/main.py:299-310 | The delay is waited for only when positive, as one wait of that length. |
| Legacy.ShippedSettingsNeverSucceed | src/main.py:301 | With the settings class as shipped, no legacy capture succeeds. A loaded page fails on the missing `default_delay` before any wait or screenshot. |
| Legacy.AfterNavigationWithShippedSettings | src/main.py:293-301 | After any navigation, the shipped settings give a failure with nothing more in the trace. |
| Legacy.ConfiguredDelayCaptures | src/main.py:299-356 | With a default delay set, a loaded page waits `max(delay, default)` when positive and makes one screenshot attempt. It succeeds exactly when that attempt and decoding do. A success reports the decoded size of the captured bytes, and for base64 output their base64 encoding. |
| Legacy.LegacyMissingElementIsReported | src/main.py:322-331 | A missing selector element ends the capture with the 400 not-found error after a single lookup. |
| Legacy.LegacyResponseShape | src/main.py:349-373 | A failure has no data, a 0x0 size and an error text. A success has no error and data exactly for base64. Both echo the URL and format. |
| Legacy.LegacyBadStatusIsRejected | src/main.py:293-297 | No response, or a status of 400 or more, ends the capture with "400: Failed to load URL: ..." and nothing after navigation. |
| Legacy.LegacyCaptureGotos | src/main.py:286-331 | A whole legacy capture makes at most 9 gotos, in the planned order. |
| Legacy.LegacyAfterNavigationGotos | src/main.py:293-340 | After navigation, no further goto is made. |
| Legacy.LegacySetupFailureLeaksContext | src/main.py:155-169 | As written, a failure after `new_context` leaves the opened context unreleased. |
| Legacy.LegacyCookieFailureLeaksContext | src/main.py:162-163 | A concrete case: `add_cookies` raises, and nothing is released. |
| Legacy.EveryLegacyHandleReleasedOnce | src/main.py:375-379 | With the corrected setup, the context and the page are each released exactly once when opened, the page first. |
| Legacy.LegacyService.constructor | src/main.py:92-94 | A new service has no browser and the given settings. |
| Legacy.LegacyService.InitBrowser | src/main.py:96-130 | The browser is launched only when none is up, and at most once. |
| Legacy.LegacyService.OpenContext | src/main.py:134-155 | The method fails exactly on a launch or `new_context` failure. Otherwise it returns a fresh, unconfigured context with the legacy options. |
| Legacy.LegacyService.ConfigureContext | src/main.py:157-167 | The method fails with the first failing call. Otherwise the headers are set only when given, with the cookies, and a route exactly with ad blocking. |
| Legacy.LegacyService.CreateContext | src/main.py:132-169 | As written: the method raises exactly the setup failure, and leaves an opened context unclosed. |
| Legacy.LegacyService.CreateContextReleasingOnError | src/main.py:132-169 | Corrected: an opened context is closed once before the failure is re-raised. |
| Legacy.LegacyService.CaptureOnPage | src/main.py:272-291 | Work on an opened page yields the specification's page run and does not close the page. The page becomes styled exactly when animations are disabled and `add_style_tag` succeeds; a page already styled stays so. |
| Legacy.LegacyService.CaptureAfterNavigation | src/main.py:293-356 | What follows navigation yields the specification's run for that navigation. |
| Legacy.LegacyService.UseContext | src/main.py:272-379 | A failing `new_page` gives its failure. Otherwise the page run is the specification's and the page is closed exactly once. The page is styled exactly when animations are disabled and `add_style_tag` succeeds. |
| Legacy.LegacyService.CaptureScreenshot | src/main.py:263-379 | Corrected (see "## Findings"): with the context setup that releases on error, the response, trace and releases equal the legacy capture specification, and context and page are each closed exactly once when opened. After a setup without failure, the context carries the legacy options, the headers only when given, the cookies, and the route exactly when `block_ads` is on. The page is styled exactly when animations are disabled and `add_style_tag` succeeds. The browser is up afterwards exactly when it was before or its launch succeeded, and an up browser is not launched again. As written, a failed setup leaks the context (`LegacySetupFailureLeaksContext`). |

## Left out

- Browser launch arguments, `cleanup`, and the `page.on` console and page-error hooks. These are Playwright process I/O. The launch is an oracle outcome.
- The `Throttler` around the legacy capture, and all concurrency and rate limiting. It is a foreign async library.
- The FastAPI endpoints, CORS and health checks, and the binary-mode re-capture (src/main.py:413-478). That re-capture runs navigation again without any status check, and reads `default_delay` again.
- `str(request.url)`: pydantic's `HttpUrl` normalisation. The URL is kept as the given string.
- How PIL decodes dimensions and how base64 encodes. Both are opaque functions of the engine oracle. The model states only that a success reports the oracle's decoding of the captured bytes and, for base64 output, the oracle's encoding of them.
- Real sleeps and waits. Their durations are recorded in the trace instead.
- Real DOM querying. Elements are records, and selectors are the five forms the scripts use.
- Floating point. The multipliers and score weights are exact `real`s, with no IEEE rounding.
- The CSS text injected by `add_style_tag`. Only whether the call is made and whether it fails is modelled.
- Unicode case mapping. `Lower` is ASCII only.
- The NFKC and bracketed-host checks of `urlsplit`. Only the C0 stripping, the tab/CR/LF removal, the scheme split, the `//` netloc and the unbalanced-bracket `ValueError` are modelled.
- Models.Validate: the URL check covers URLs written in full (`http://` or `https://`, a non-empty host, at most 2083 characters). The URL parser's leniencies and host checks (missing slashes, backslashes, surrounding whitespace, invalid host characters, percent-encoding) are not modelled, and neither is the normalisation of the accepted URL.
- The engine oracle does not reproduce Playwright's own argument checks. Both services pass `full_page` to `ElementHandle.screenshot` (src/core/screenshot_service.py:186-189, src/main.py:313-329), which takes no such keyword, and Playwright's screenshot `type` accepts only png and jpeg. So in the real program a selector capture and a webp capture raise on every attempt, while the oracle can let them succeed.
- ResourcePolicy.AssetRuleAllowsWhatReachesIt: is stated only for URLs without tab, CR or LF. For URLs with them, `urlsplit` removes the characters before taking the netloc, so the netloc need not be a substring of the URL: `http://double\tclick.net/f.woff` misses the lists but its netloc `doubleclick.net` is blocked by the asset rule.
- ResourcePolicy.NetlocHitIsUrlHit: is stated only for URLs without tab, CR or LF, for the same reason.
- ResourcePolicy.FontsAndStylesheetsFollowTheLists: is stated only for URLs without tab, CR or LF; the URL above is a font blocked without a list hit.
- Exceptions raised by the waits themselves, by `evaluate`, or by `close`. The model's waits always succeed. The readiness wait, the network-idle wait and the final content checks swallow their exceptions in the source, so for them the model loses nothing. This is not so for a strategy's settle wait (`page.wait_for_timeout(extra_wait)`, src/core/navigation.py:64-65). It sits inside the strategy's `try`, so an exception there makes the strategy fail: its backoff sleep follows, then the next strategy. The same holds for the fallback's 8-second wait (src/core/navigation.py:113), whose exception is re-raised as the navigation's error. The model does not capture either path.
- Timestamps, processing time and logging.
- Case-insensitive header names. Request headers override defaults by exact key.
- The settings object of the enhanced service. Its caller is not part of this model, and its `default_delay` is a constructor parameter here. src/config.py's `Settings` declares no such field either.
- The request interceptor is not exercised through a real route. Each verdict is a function value, so it is deterministic and answers once by construction.

## Findings

| source | as written | input that shows it | evidently intended | confidence | as-written member | corrected member |
|---|---|---|---|---|---|---|
| src/main.py:301 | The legacy capture reads `settings.default_delay`, but `Settings` in src/config.py:4-51 declares no such field. | Any valid request whose navigation returns a status below 400: the read raises `AttributeError`, and the capture answers `success=False`. | A configured minimum delay, with the wait and the screenshot after it. | not executed | Legacy.ShippedSettingsNeverSucceed | Legacy.ConfiguredDelayCaptures |
| src/core/screenshot_service.py:107-133 | `create_context` opens the context, then sets headers, cookies and the route. When one of those raises, the caller's `context` is still `None`, and `finally` never closes the opened context. | The browser is up, `new_context` succeeds, and `set_extra_http_headers` raises (for example "Target closed"). | A context opened by a failed setup is closed before the error propagates. | not executed | ScreenshotService.HeaderFailureLeaksContext | ScreenshotService.EveryHandleReleasedOnce |
| src/main.py:155-167 | The same leak in the legacy `create_context`. | A request with a cookie that `add_cookies` rejects (for example one with neither url nor domain). | The same: close the opened context on failure. | not executed | Legacy.LegacyCookieFailureLeaksContext | Legacy.EveryLegacyHandleReleasedOnce |
