/**
  * The capture request of the enhanced engine (src/core/models.py) and the field checks
  * the request model applies before any capture starts.
  */
module Models {
  import opened Common
  import opened Engine

  datatype ScreenshotRequest = ScreenshotRequest(
    url: string,
    width: int,
    height: int,
    format: string,
    quality: Option<int>,
    fullPage: bool,
    delay: int,
    timeout: int,
    userAgent: Option<string>,
    headers: Option<map<string, string>>,
    cookies: Option<seq<Cookie>>,
    selector: Option<string>,
    mobile: bool,
    disableAnimations: bool,
    blockAds: bool,
    blockImages: bool,
    outputFormat: string,
    waitForNetworkIdle: bool,
    smartWait: bool,
    aggressiveWait: bool,
    extraWaitTime: int)

  /** A request for `url` with every other field at its declared default. */
  function DefaultRequest(url: string): (r: ScreenshotRequest)
    ensures r.url == url
  {
    ScreenshotRequest(
      url, 1920, 1080, "png", None, false, 0, 30000, None, None, None, None,
      false, true, true, false, "base64", true, true, false, 0)
  }

  /** What a capture answers: `data` holds the base64 image, `error` the text of the
      exception that ended a failed capture. The timestamp is not modelled. */
  datatype ScreenshotResponse = ScreenshotResponse(
    success: bool,
    url: string,
    size: Size,
    format: string,
    data: Option<string>,
    error: Option<string>)

  /** One rejected field, in the words of the constraint it breaks. */
  datatype FieldError =
    | UrlNotHttp | WidthOutOfRange | HeightOutOfRange | FormatNotAllowed
    | QualityOutOfRange | QualityWithoutJpeg
    | DelayOutOfRange | TimeoutOutOfRange | OutputFormatNotAllowed | ExtraWaitOutOfRange

  const ImageFormats: set<string> := {"png", "jpeg", "webp"}
  const OutputFormats: set<string> := {"base64", "binary"}

  /** The characters that end the host part of a URL. */
  predicate EndsHost(c: char) { c == '/' || c == '?' || c == '#' }

  /** `url` begins with `prefix` (in any ASCII letter case), followed by a non-empty host. */
  predicate StartsWithHost(url: string, prefix: string)
  {
    |prefix| < |url| && Lower(url[..|prefix|]) == prefix && !EndsHost(url[|prefix|])
  }

  /** pydantic's `HttpUrl`, for URLs written in full: an http or https scheme, `://`, a
      non-empty host, and at most 2083 characters. */
  predicate IsHttpUrl(url: string)
  {
    && |url| <= 2083
    && (StartsWithHost(url, "http://") || StartsWithHost(url, "https://"))
  }

  function Check(ok: bool, e: FieldError): seq<FieldError> { if ok then [] else [e] }

  /**
    * The errors the request model reports, field by field in declaration order. The quality
    * validator runs only once the range check on quality has passed, and it rejects a
    * quality whenever the format is not "jpeg" (also when the format itself was rejected).
    */
  function FieldErrors(r: ScreenshotRequest): seq<FieldError>
  {
    Check(IsHttpUrl(r.url), UrlNotHttp)
    + Check(320 <= r.width <= 3840, WidthOutOfRange)
    + Check(240 <= r.height <= 2160, HeightOutOfRange)
    + Check(r.format in ImageFormats, FormatNotAllowed)
    + (match r.quality
       case None => []
       case Some(q) =>
         if !(1 <= q <= 100) then [QualityOutOfRange]
         else Check(r.format == "jpeg", QualityWithoutJpeg))
    + Check(0 <= r.delay <= 30000, DelayOutOfRange)
    + Check(5000 <= r.timeout <= 120000, TimeoutOutOfRange)
    + Check(r.outputFormat in OutputFormats, OutputFormatNotAllowed)
    + Check(0 <= r.extraWaitTime <= 15000, ExtraWaitOutOfRange)
  }

  /** The request invariant as a declarative statement: every bound, and a quality only for jpeg. */
  predicate Valid(r: ScreenshotRequest)
  {
    && IsHttpUrl(r.url)
    && 320 <= r.width <= 3840
    && 240 <= r.height <= 2160
    && r.format in ImageFormats
    && (r.quality.Some? ==> 1 <= r.quality.value <= 100 && r.format == "jpeg")
    && 0 <= r.delay <= 30000
    && 5000 <= r.timeout <= 120000
    && r.outputFormat in OutputFormats
    && 0 <= r.extraWaitTime <= 15000
  }

  /** Parsing a request: it is accepted as it is, or rejected with its field errors. */
  function Validate(r: ScreenshotRequest): (res: Result<ScreenshotRequest, seq<FieldError>>)
    ensures res.Ok? <==> Valid(r)
    ensures res.Ok? ==> res.value == r
    ensures res.Err? ==> |res.error| > 0
    ensures res.Err? && !IsHttpUrl(r.url) ==> UrlNotHttp in res.error
    ensures res.Err? && !(320 <= r.width <= 3840) ==> WidthOutOfRange in res.error
    ensures res.Err? && !(240 <= r.height <= 2160) ==> HeightOutOfRange in res.error
    ensures res.Err? && r.quality.Some? && r.format != "jpeg" ==>
              QualityWithoutJpeg in res.error || QualityOutOfRange in res.error
  {
    var errors := FieldErrors(r);
    if errors == [] then Ok(r) else Err(errors)
  }

  /** The bounds the API tests probe: 319, 3841, 239 and 2161 are rejected, 1024 x 768 passes,
      gif is rejected and so is a quality with png. */
  lemma BoundaryRequests(url: string)
    requires IsHttpUrl(url)
    ensures !Valid(DefaultRequest(url).(width := 319))
    ensures !Valid(DefaultRequest(url).(width := 3841))
    ensures !Valid(DefaultRequest(url).(height := 239))
    ensures !Valid(DefaultRequest(url).(height := 2161))
    ensures Valid(DefaultRequest(url).(width := 1024, height := 768))
    ensures Valid(DefaultRequest(url).(width := 320, height := 240))
    ensures Valid(DefaultRequest(url).(width := 3840, height := 2160))
    ensures !Valid(DefaultRequest(url).(format := "gif"))
    ensures !Valid(DefaultRequest(url).(quality := Some(80)))
    ensures Valid(DefaultRequest(url).(format := "jpeg", quality := Some(80)))
    ensures !Valid(DefaultRequest(url).(format := "jpeg", quality := Some(0)))
    ensures Validate(DefaultRequest(url).(quality := Some(80))) == Err([QualityWithoutJpeg])
  {
    var r := DefaultRequest(url).(quality := Some(80));
    assert FieldErrors(r) == [] + [] + [] + [] + [QualityWithoutJpeg] + [] + [] + [] + [];
    assert FieldErrors(r) == [QualityWithoutJpeg];
    assert Validate(r) == Err(FieldErrors(r));
  }

  /** The all-defaults request is accepted, with the declared default flags. */
  lemma DefaultRequestIsValid(url: string)
    requires IsHttpUrl(url)
    ensures Valid(DefaultRequest(url))
    ensures var r := DefaultRequest(url);
      r.blockAds && !r.blockImages && r.smartWait && r.waitForNetworkIdle
      && !r.aggressiveWait && r.disableAnimations
  {
  }

  /** A URL whose first characters lower-case to `prefix` and whose next character starts a
      host. */
  lemma StartsWithHostAt(url: string, prefix: string)
    requires |prefix| < |url| && !EndsHost(url[|prefix|])
    requires forall i :: 0 <= i < |prefix| ==> LowerChar(url[i]) == prefix[i]
    ensures StartsWithHost(url, prefix)
  {
    assert Lower(url[..|prefix|]) == prefix;
  }

  /** The URLs the API tests accept: http and https. */
  lemma HttpUrlsAccepted()
    ensures IsHttpUrl("http://example.com") && IsHttpUrl("https://example.com")
  {
    StartsWithHostAt("http://example.com", "http://");
    StartsWithHostAt("https://example.com", "https://");
  }

  /** The URLs the API tests reject: a bare word and an ftp URL; a scheme without a host is
      rejected too. */
  lemma NonHttpUrlsRejected()
    ensures !IsHttpUrl("invalid-url") && !IsHttpUrl("ftp://example.com") && !IsHttpUrl("https://")
  {
    var bad, ftp := "invalid-url", "ftp://example.com";
    assert Lower(bad[..7])[0] != 'h' && Lower(bad[..8])[0] != 'h';
    assert Lower(ftp[..7])[0] != 'h' && Lower(ftp[..8])[0] != 'h';
  }

  /** An ftp request is refused with exactly the URL error. */
  lemma FtpRequestRefused()
    ensures Validate(DefaultRequest("ftp://example.com")) == Err([UrlNotHttp])
  {
    NonHttpUrlsRejected();
    var r := DefaultRequest("ftp://example.com");
    assert !IsHttpUrl(r.url);
    assert FieldErrors(r) == [UrlNotHttp] + [] + [] + [] + [] + [] + [] + [] + [];
    assert FieldErrors(r) == [UrlNotHttp];
  }
}
