/**
  * The sub-resource interception policy of the enhanced engine (src/core/resource_handler.py):
  * for every request a page makes, allow it (route.continue_) or block it (route.abort).
  * The handler keeps no state, so it is a function of the request URL, its resource type,
  * the URL of the frame that issued it and the request's block_images flag.
  */
module ResourcePolicy {
  import opened Common

  datatype Verdict = Allow | Block

  /** Ad, analytics and tracker domains. */
  const BlockedDomains: set<string> := {
    "googletagmanager.com", "google-analytics.com", "googlesyndication.com",
    "doubleclick.net", "outbrain.com", "taboola.com", "amazon-adsystem.com",
    "scorecardresearch.com", "quantserve.com", "chartbeat.com", "parsely.com",
    "krxd.net", "adsystem.com", "ads.yahoo.com", "advertising.com",
    "facebook.com/tr", "connect.facebook.net", "analytics.twitter.com",
    "hotjar.com", "fullstory.com", "mouseflow.com", "crazyegg.com",
    "optimizely.com", "mixpanel.com", "segment.com", "amplitude.com"
  }

  /** URL fragments of ad, analytics and pixel endpoints. */
  const BlockedPatterns: set<string> := {
    "googletagmanager", "google-analytics", "googlesyndication", "googleadservices",
    "doubleclick.net", "/gtm.js", "/analytics.js", "/ga.js",
    "facebook.com/tr", "twitter.com/i/adsct", "linkedin.com/li",
    "tiktok.com/i18n/pixel", "snapchat.com/p", "/pixel.gif",
    "outbrain.com", "taboola.com", "amazon-adsystem.com"
  }

  /** Content hosts whose images are always let through. */
  const TrustedImageDomains: set<string> := {
    "i.ytimg.com", "yt3.ggpht.com", "yt3.googleusercontent.com",
    "lh3.googleusercontent.com", "lh4.googleusercontent.com", "lh5.googleusercontent.com",
    "media.giphy.com", "i.imgur.com", "imgur.com",
    "cdn.vox-cdn.com", "duet-cdn.vox-cdn.com", "chorus-cdn.net",
    "scontent.fbcdn.net", "pbs.twimg.com", "abs.twimg.com",
    "cloudfront.net", "fastly.com", "jsdelivr.net", "unpkg.com"
  }

  /** Resource types never needed for a screenshot. */
  const AlwaysBlockTypes: set<string> := {"other"}

  /** URL fragments that mark an image as an advertisement. */
  const ExplicitAdIndicators: set<string> := {
    "/ad/", "/ads/", "/banner/", "/popup/",
    "advertisement", "adnxs.com", "adsystem.com",
    "googlesyndication", "doubleclick"
  }

  const ImageTypes: set<string> := {"image", "media"}
  const AssetTypes: set<string> := {"font", "stylesheet"}

  // ---------------------------------------------------------------------------------------
  // The network location of a URL, as Python's urllib.parse.urlparse(url).netloc finds it.

  /** The characters urlsplit strips from the front of a URL (C0 controls and space). */
  predicate IsC0OrSpace(c: char) { c <= ' ' }

  /** The characters urlsplit deletes everywhere in a URL. */
  predicate IsUnsafe(c: char) { c == '\t' || c == '\r' || c == '\n' }

  predicate HasNoUnsafe(s: string) { forall i :: 0 <= i < |s| ==> !IsUnsafe(s[i]) }

  function LStripC0(s: string): (r: string)
    ensures |r| <= |s| && r == s[|s| - |r|..]
    ensures r != [] ==> !IsC0OrSpace(r[0])
  {
    if s != [] && IsC0OrSpace(s[0]) then LStripC0(s[1..]) else s
  }

  function RemoveUnsafe(s: string): (r: string)
    ensures HasNoUnsafe(s) ==> r == s
    ensures HasNoUnsafe(r)
  {
    if s == [] then []
    else (if IsUnsafe(s[0]) then [] else [s[0]]) + RemoveUnsafe(s[1..])
  }

  predicate IsAsciiAlpha(c: char) { 'a' <= c <= 'z' || 'A' <= c <= 'Z' }

  predicate IsSchemeChar(c: char)
  {
    IsAsciiAlpha(c) || '0' <= c <= '9' || c == '+' || c == '-' || c == '.'
  }

  /** The index of the first `c` in `s`, Python's `s.find(c)` (None for -1). */
  function Find(s: string, c: char): (r: Option<nat>)
    ensures r.Some? ==> r.value < |s| && s[r.value] == c
    ensures r.Some? ==> forall k :: 0 <= k < r.value ==> s[k] != c
    ensures r.None? ==> forall k :: 0 <= k < |s| ==> s[k] != c
  {
    if s == [] then None
    else if s[0] == c then Some(0)
    else match Find(s[1..], c)
      case None => None
      case Some(i) => Some(i + 1)
  }

  /** The URL with its scheme and colon removed, when it starts with a well-formed scheme. */
  function AfterScheme(u: string): (r: string)
    ensures |r| <= |u| && r == u[|u| - |r|..]
  {
    match Find(u, ':')
    case None => u
    case Some(i) =>
      if i > 0 && IsAsciiAlpha(u[0]) && (forall k :: 0 <= k < i ==> IsSchemeChar(u[k]))
      then u[i + 1..] else u
  }

  predicate IsNetlocDelimiter(c: char) { c == '/' || c == '?' || c == '#' }

  /** The prefix of `s` before the first '/', '?' or '#'. */
  function UpToDelimiter(s: string): (r: string)
    ensures r <= s
    ensures forall k :: 0 <= k < |r| ==> !IsNetlocDelimiter(r[k])
  {
    if s == [] || IsNetlocDelimiter(s[0]) then [] else [s[0]] + UpToDelimiter(s[1..])
  }

  /** `urlparse(url).netloc`, or the ValueError it raises for an unbalanced IPv6 bracket. */
  function UrlNetloc(url: string): Result<string, string>
  {
    var u := RemoveUnsafe(LStripC0(url));
    var rest := AfterScheme(u);
    if |rest| >= 2 && rest[..2] == "//" then
      var netloc := UpToDelimiter(rest[2..]);
      if ('[' in netloc) != (']' in netloc) then Err("Invalid IPv6 URL") else Ok(netloc)
    else Ok("")
  }

  /** Removing leading control characters keeps a URL free of tabs and line breaks. */
  lemma LStripKeepsSafe(url: string)
    requires HasNoUnsafe(url)
    ensures HasNoUnsafe(LStripC0(url))
  {
    var s := LStripC0(url);
    forall i | 0 <= i < |s| ensures !IsUnsafe(s[i]) {
      assert s[i] == url[|url| - |s| + i];
    }
  }

  /** What occurs in a suffix of a string occurs in the string. */
  lemma ContainsInSuffix(s: string, k: nat, x: string)
    requires k <= |s| && Contains(s[k..], x)
    ensures Contains(s, x)
  {
    var i := ContainsWitness(s[k..], x);
    assert s[k..][i..i + |x|] == s[k + i..k + i + |x|];
    ContainsAt(s, x, k + i);
  }

  /** The text after the `//` of a URL, up to the first delimiter, is a piece of it. */
  lemma DelimitedPieceOccurs(rest: string)
    requires |rest| >= 2
    ensures Contains(rest, UpToDelimiter(rest[2..]))
  {
    var n := UpToDelimiter(rest[2..]);
    assert rest[2..][..|n|] == rest[2..2 + |n|];
    ContainsAt(rest, n, 2);
  }

  /** The network location is empty or the piece after the `//` of what follows the scheme. */
  lemma NetlocAfterScheme(url: string)
    requires UrlNetloc(url).Ok?
    ensures var rest := AfterScheme(RemoveUnsafe(LStripC0(url)));
      UrlNetloc(url).value == [] || (|rest| >= 2 && UrlNetloc(url).value == UpToDelimiter(rest[2..]))
  {
  }

  /** For a URL free of tabs and line breaks, what follows the scheme is a suffix of it. */
  lemma RestIsSuffix(url: string)
    requires HasNoUnsafe(url)
    ensures var rest := AfterScheme(RemoveUnsafe(LStripC0(url)));
      |rest| <= |url| && rest == url[|url| - |rest|..]
  {
    var s := LStripC0(url);
    LStripKeepsSafe(url);
    assert RemoveUnsafe(s) == s;
  }

  /** For a URL free of tabs and line breaks (as every URL the browser reports is), the
      network location urlparse extracts is a piece of the URL itself. */
  lemma NetlocOccursInUrl(url: string)
    requires HasNoUnsafe(url)
    requires UrlNetloc(url).Ok?
    ensures Contains(url, UrlNetloc(url).value)
  {
    var rest := AfterScheme(RemoveUnsafe(LStripC0(url)));
    var n := UrlNetloc(url).value;
    NetlocAfterScheme(url);
    RestIsSuffix(url);
    if n == [] {
      assert n <= url;
    } else {
      DelimitedPieceOccurs(rest);
      ContainsInSuffix(url, |url| - |rest|, n);
    }
  }

  // ---------------------------------------------------------------------------------------
  // The verdicts.

  /** ResourceHandler._handle_image_request: decides an image or media request that the
      list checks let through. `url` is the request URL as reported, not lower-cased. */
  function ImageVerdict(url: string, frameUrl: string): (v: Verdict)
    ensures UrlNetloc(url).Err? || UrlNetloc(frameUrl).Err? ==> v == Allow
    ensures UrlNetloc(url).Ok? && ContainsAny(UrlNetloc(url).value, TrustedImageDomains) ==> v == Allow
    ensures UrlNetloc(url).Ok? && UrlNetloc(frameUrl).Ok? ==>
              var d, page := UrlNetloc(url).value, UrlNetloc(frameUrl).value;
              d == page || EndsWith(d, "." + page) ==> v == Allow
    ensures v == Block ==> ContainsAny(Lower(url), ExplicitAdIndicators)
    ensures UrlNetloc(url).Ok? && UrlNetloc(frameUrl).Ok? ==>
              var d, page := UrlNetloc(url).value, UrlNetloc(frameUrl).value;
              !ContainsAny(d, TrustedImageDomains) && !(d == page || EndsWith(d, "." + page)) ==>
                (v == Block <==> ContainsAny(Lower(url), ExplicitAdIndicators))
  {
    match UrlNetloc(url)
    case Err(_) => Allow
    case Ok(requestDomain) =>
      match UrlNetloc(frameUrl)
      case Err(_) => Allow
      case Ok(pageDomain) =>
        if ContainsAny(requestDomain, TrustedImageDomains) then Allow
        else if requestDomain == pageDomain || EndsWith(requestDomain, "." + pageDomain) then Allow
        else if ContainsAny(Lower(url), ExplicitAdIndicators) then Block
        else Allow
  }

  /** ResourceHandler._handle_asset_request: decides a font or stylesheet request. */
  function AssetVerdict(url: string): (v: Verdict)
    ensures v == Block <==> UrlNetloc(url).Ok? && ContainsAny(UrlNetloc(url).value, BlockedDomains)
  {
    match UrlNetloc(url)
    case Err(_) => Allow
    case Ok(requestDomain) => if ContainsAny(requestDomain, BlockedDomains) then Block else Allow
  }

  /** Does the lower-cased URL hit the blocked-domain or the blocked-pattern list? */
  predicate ListHit(lowerUrl: string)
  {
    ContainsAny(lowerUrl, BlockedDomains) || ContainsAny(lowerUrl, BlockedPatterns)
  }

  /**
    * ResourceHandler.handle_request: the verdict on one intercepted request. The first rule
    * that applies decides: images and media while image blocking is off are allowed; a URL
    * on the block lists is blocked; type "other" is blocked; images and media go to the image
    * rule, fonts and stylesheets to the asset rule; everything else is allowed.
    */
  function HandleRequest(url: string, resourceType: string, frameUrl: string, blockImages: bool): (v: Verdict)
    ensures resourceType in ImageTypes && !blockImages ==> v == Allow
    ensures !(resourceType in ImageTypes && !blockImages) && ListHit(Lower(url)) ==> v == Block
    ensures resourceType in AlwaysBlockTypes ==> v == Block
    ensures resourceType !in ImageTypes + AssetTypes + AlwaysBlockTypes ==> (v == Block <==> ListHit(Lower(url)))
    ensures resourceType in ImageTypes && blockImages ==>
              (v == Block <==> ListHit(Lower(url)) || ImageVerdict(url, frameUrl) == Block)
  {
    var lower := Lower(url);
    if resourceType in ImageTypes && !blockImages then Allow
    else if ContainsAny(lower, BlockedDomains) then Block
    else if ContainsAny(lower, BlockedPatterns) then Block
    else if resourceType in AlwaysBlockTypes then Block
    else if resourceType in ImageTypes then ImageVerdict(url, frameUrl)
    else if resourceType in AssetTypes then AssetVerdict(url)
    else Allow
  }

  // ---------------------------------------------------------------------------------------
  // Properties of the policy.

  // The blocked domains are written in lower case (shown a few at a time).
  lemma BlockedDomainsLowerCase0()
    ensures IsLowerCase("googletagmanager.com")
      && IsLowerCase("google-analytics.com")
      && IsLowerCase("googlesyndication.com")
      && IsLowerCase("doubleclick.net")
  {
  }

  lemma BlockedDomainsLowerCase1()
    ensures IsLowerCase("outbrain.com")
      && IsLowerCase("taboola.com")
      && IsLowerCase("amazon-adsystem.com")
      && IsLowerCase("scorecardresearch.com")
  {
  }

  lemma BlockedDomainsLowerCase2()
    ensures IsLowerCase("quantserve.com")
      && IsLowerCase("chartbeat.com")
      && IsLowerCase("parsely.com")
      && IsLowerCase("krxd.net")
  {
  }

  lemma BlockedDomainsLowerCase3()
    ensures IsLowerCase("adsystem.com")
      && IsLowerCase("ads.yahoo.com")
      && IsLowerCase("advertising.com")
      && IsLowerCase("facebook.com/tr")
  {
  }

  lemma BlockedDomainsLowerCase4()
    ensures IsLowerCase("connect.facebook.net")
      && IsLowerCase("analytics.twitter.com")
      && IsLowerCase("hotjar.com")
      && IsLowerCase("fullstory.com")
  {
  }

  lemma BlockedDomainsLowerCase5()
    ensures IsLowerCase("mouseflow.com")
      && IsLowerCase("crazyegg.com")
      && IsLowerCase("optimizely.com")
      && IsLowerCase("mixpanel.com")
  {
  }

  lemma BlockedDomainsLowerCase6()
    ensures IsLowerCase("segment.com")
      && IsLowerCase("amplitude.com")
  {
  }

  lemma BlockedDomainsAreLowerCase()
    ensures forall d :: d in BlockedDomains ==> IsLowerCase(d)
  {
    BlockedDomainsLowerCase0();
    BlockedDomainsLowerCase1();
    BlockedDomainsLowerCase2();
    BlockedDomainsLowerCase3();
    BlockedDomainsLowerCase4();
    BlockedDomainsLowerCase5();
    BlockedDomainsLowerCase6();
  }

  /** A blocked domain inside the network location of a URL is inside the lower-cased URL. */
  lemma NetlocHitIsUrlHit(url: string, d: string)
    requires HasNoUnsafe(url)
    requires UrlNetloc(url).Ok?
    requires d in BlockedDomains && Contains(UrlNetloc(url).value, d)
    ensures Contains(Lower(url), d)
  {
    NetlocOccursInUrl(url);
    ContainsTransitive(url, UrlNetloc(url).value, d);
    ContainsLower(url, d);
    BlockedDomainsAreLowerCase();
    LowerOfLowerCase(d);
  }

  /** The block branch of the asset rule cannot be reached: a font or stylesheet whose network
      location holds a blocked domain has a URL holding it too, and was blocked by the list
      check before the asset rule ran. Holds for URLs without tabs or line breaks. */
  lemma AssetRuleAllowsWhatReachesIt(url: string)
    requires HasNoUnsafe(url)
    requires !ContainsAny(Lower(url), BlockedDomains)
    ensures AssetVerdict(url) == Allow
  {
    if UrlNetloc(url).Ok? {
      forall d | d in BlockedDomains
        ensures !Contains(UrlNetloc(url).value, d)
      {
        if Contains(UrlNetloc(url).value, d) {
          NetlocHitIsUrlHit(url, d);
        }
      }
    }
  }

  /** So a font or stylesheet is blocked exactly when its URL is on a block list. */
  lemma FontsAndStylesheetsFollowTheLists(url: string, resourceType: string, frameUrl: string, blockImages: bool)
    requires HasNoUnsafe(url)
    requires resourceType in AssetTypes
    ensures HandleRequest(url, resourceType, frameUrl, blockImages) == Block <==> ListHit(Lower(url))
  {
    if !ListHit(Lower(url)) {
      AssetRuleAllowsWhatReachesIt(url);
    }
  }

  /** A URL-parse failure in the image rule fails open. */
  lemma MalformedImageUrlIsAllowed(url: string, resourceType: string, frameUrl: string)
    requires resourceType in ImageTypes
    requires !ListHit(Lower(url))
    requires UrlNetloc(url).Err? || UrlNetloc(frameUrl).Err?
    ensures HandleRequest(url, resourceType, frameUrl, true) == Allow
  {
  }

  lemma SampleStrip()
    ensures LStripC0("a://[/") == "a://[/"
  {
    assert !IsC0OrSpace("a://[/"[0]);
  }

  lemma SampleSafe()
    ensures RemoveUnsafe("a://[/") == "a://[/"
  {
    assert HasNoUnsafe("a://[/");
  }

  lemma SampleScheme()
    ensures AfterScheme("a://[/") == "//[/"
  {
    var url := "a://[/";
    assert Find(url, ':') == Some(1) by {
      assert url[0] != ':' && url[1] == ':';
    }
    assert url[2..] == "//[/";
  }

  lemma SampleNetloc()
    ensures UpToDelimiter("//[/"[2..]) == "["
  {
    assert "//[/"[2..] == "[/";
    assert "[/"[1..] == "/";
  }

  /** An unbalanced bracket in the host makes urlparse raise, and the image is allowed. */
  lemma UnbalancedBracketFailsOpen()
    ensures UrlNetloc("a://[/").Err?
  {
    SampleStrip();
    SampleSafe();
    SampleScheme();
    SampleNetloc();
    assert "//[/"[..2] == "//";
    assert '[' in "[" && ']' !in "[";
  }

  /** With image blocking off, an image from an ad server is still allowed. */
  lemma AdServerImageAllowedByDefault(frameUrl: string)
    ensures HandleRequest("https://ad.doubleclick.net/banner.png", "image", frameUrl, false) == Allow
  {
  }

  /** With image blocking on, an image from a third-party host that no list names, under an
      `/ad/` path, is blocked by the image rule's ad-indicator check. */
  lemma ThirdPartyBannerBlocked()
    ensures HandleRequest(BannerUrl, "image", BannerPageUrl, true) == Block
  {
    BannerNotListed();
    BannerUrlLowerCase();
    BannerImageVerdict();
    assert "image" in ImageTypes && "image" !in AlwaysBlockTypes;
  }

  /** The image rule on the banner: neither trusted nor first-party, and under `/ad/`. */
  lemma BannerImageVerdict()
    ensures ImageVerdict(BannerUrl, BannerPageUrl) == Block
  {
    BannerNetlocs();
    BannerHostUntrusted();
    BannerHasIndicator();
    assert !EndsWith("a.net", ".b.net");
  }

  lemma BannerNetlocs()
    ensures UrlNetloc(BannerUrl) == Ok("a.net") && UrlNetloc(BannerPageUrl) == Ok("b.net")
  {
    assert PlainHost("a.net") && PlainHost("b.net");
    HttpNetloc("a.net", "/ad/");
    HttpNetloc("b.net", "/");
  }

  lemma BannerHasIndicator()
    ensures ContainsAny(Lower(BannerUrl), ExplicitAdIndicators)
  {
    BannerUrlLowerCase();
    assert BannerUrl[12..16] == "/ad/";
    ContainsAt(BannerUrl, "/ad/", 12);
    assert "/ad/" in ExplicitAdIndicators;
  }

  /** A URL starting with `http:` has that scheme removed. */
  lemma HttpScheme(url: string)
    requires |url| >= 5 && url[..5] == "http:"
    ensures AfterScheme(url) == url[5..]
  {
    assert url[0] == 'h' && url[1] == 't' && url[2] == 't' && url[3] == 'p' && url[4] == ':';
    assert Find(url, ':') == Some(4);
    assert forall k :: 0 <= k < 4 ==> IsSchemeChar(url[k]);
  }

  /** A plain host name: lower-case letters and dots. */
  predicate PlainHost(host: string)
  {
    forall i :: 0 <= i < |host| ==> 'a' <= host[i] <= 'z' || host[i] == '.'
  }

  /** `http://host/path` for a plain host is left alone by the stripping steps of urlsplit. */
  lemma HttpUrlIsClean(host: string, path: string)
    requires PlainHost(host) && HasNoUnsafe(path)
    ensures RemoveUnsafe(LStripC0("http://" + host + path)) == "http://" + host + path
  {
    var url := "http://" + host + path;
    forall i | 0 <= i < |url| ensures !IsUnsafe(url[i]) {
      if i >= 7 + |host| { assert url[i] == path[i - 7 - |host|]; }
      else if i >= 7 { assert url[i] == host[i - 7]; }
    }
    assert !IsC0OrSpace(url[0]);
  }

  /** The network location of `http://host/path` is the host, for a plain host name. */
  lemma HttpNetloc(host: string, path: string)
    requires PlainHost(host)
    requires path == [] || path[0] == '/'
    requires HasNoUnsafe(path)
    ensures UrlNetloc("http://" + host + path) == Ok(host)
  {
    var url := "http://" + host + path;
    HttpUrlIsClean(host, path);
    assert url[..5] == "http:";
    HttpScheme(url);
    var rest := url[5..];
    assert rest[..2] == "//";
    assert url[7..] == host + path by {
      assert url == "http://" + (host + path);
    }
    assert rest[2..] == url[7..];
    UpToDelimiterStopsAt(host, path);
    assert '[' !in host && ']' !in host;
  }

  lemma {:induction false} UpToDelimiterStopsAt(host: string, path: string)
    requires forall i :: 0 <= i < |host| ==> !IsNetlocDelimiter(host[i])
    requires path == [] || IsNetlocDelimiter(path[0])
    ensures UpToDelimiter(host + path) == host
  {
    if host == [] {
      assert host + path == path;
    } else {
      assert (host + path)[1..] == host[1..] + path;
      UpToDelimiterStopsAt(host[1..], path);
    }
  }

  /** A string that lacks a character of `p` cannot contain `p`. */
  lemma MissingCharExcludes(s: string, p: string, c: char)
    requires c in p && c !in s
    ensures !Contains(s, p)
  {
    if Contains(s, p) {
      var i := ContainsWitness(s, p);
      assert false;
    }
  }

  /** The characters no list entry can do without in the banner example: every blocked
      domain and pattern has one of them. */
  predicate HasBannerMark(p: string)
  {
    'o' in p || 'c' in p || 'j' in p || 'y' in p || 'v' in p || 'f' in p || 'k' in p || 'q' in p || 'w' in p
  }

  /** A string without any of the banner marks holds no string that has one. */
  lemma MissesBannerMarked(url: string, p: string)
    requires HasBannerMark(p)
    requires forall c :: c in "ocjyvfkqw" ==> c !in url
    ensures !Contains(url, p)
  {
    var c := if 'o' in p then 'o' else if 'c' in p then 'c' else if 'j' in p then 'j'
      else if 'y' in p then 'y' else if 'v' in p then 'v' else if 'f' in p then 'f'
      else if 'k' in p then 'k' else if 'q' in p then 'q' else 'w';
    MissingCharExcludes(url, p, c);
  }

  /** The example banner: a third-party image under an `/ad/` path, on a page of another host. */
  const BannerUrl: string := "http://" + "a.net" + "/ad/"
  const BannerPageUrl: string := "http://" + "b.net" + "/"

  lemma BannerUrlLowerCase()
    ensures Lower(BannerUrl) == BannerUrl
  {
    LowerOfLowerCase(BannerUrl);
  }

  lemma BannerUrlUnmarked()
    ensures forall c :: c in "ocjyvfkqw" ==> c !in BannerUrl
  {
  }

  lemma BannerNotOnDomainList()
    ensures !ContainsAny(BannerUrl, BlockedDomains)
  {
    BannerUrlUnmarked();
    assert forall p :: p in BlockedDomains ==> HasBannerMark(p);
    forall p | p in BlockedDomains ensures !Contains(BannerUrl, p) {
      MissesBannerMarked(BannerUrl, p);
    }
  }

  lemma BannerNotOnPatternList()
    ensures !ContainsAny(BannerUrl, BlockedPatterns)
  {
    BannerUrlUnmarked();
    assert forall p :: p in BlockedPatterns ==> HasBannerMark(p);
    forall p | p in BlockedPatterns ensures !Contains(BannerUrl, p) {
      MissesBannerMarked(BannerUrl, p);
    }
  }

  lemma BannerNotListed()
    ensures !ListHit(Lower(BannerUrl))
  {
    BannerUrlLowerCase();
    BannerNotOnDomainList();
    BannerNotOnPatternList();
  }

  /** Every trusted image domain has one of these characters. */
  predicate HasTrustedMark(p: string)
  {
    'y' in p || 'o' in p || 'd' in p || 'u' in p || 'c' in p || 'b' in p || 'j' in p
  }

  lemma BannerHostUntrusted()
    ensures !ContainsAny("a.net", TrustedImageDomains)
  {
    var host := "a.net";
    assert forall p :: p in TrustedImageDomains ==> HasTrustedMark(p);
    forall p | HasTrustedMark(p) ensures !Contains(host, p) {
      var c := if 'y' in p then 'y' else if 'o' in p then 'o' else if 'd' in p then 'd'
        else if 'u' in p then 'u' else if 'c' in p then 'c' else if 'b' in p then 'b' else 'j';
      MissingCharExcludes(host, p, c);
    }
  }
}
