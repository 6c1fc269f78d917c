/**
  * The delay and readiness heuristics of the enhanced engine (src/core/content_checker.py):
  * the delay chosen from a page-complexity score, and the three page scripts the final
  * content check waits on (images loaded, lazy content loaded, YouTube thumbnails loaded).
  */
module ContentChecker {
  import opened Common
  import opened Dom
  import opened Engine

  // ---------------------------------------------------------------------------------------
  // calculate_smart_delay

  /** The score the page-analysis script computes: capped contributions of scripts, style
      sheets, images and DOM nodes, 2 per iframe, and 15 when a front-end framework is present. */
  function ComplexityScore(m: PageMetrics): (score: real)
    ensures 2.0 * m.iframeCount as real <= score <= 70.0 + 2.0 * m.iframeCount as real
    ensures !(m.hasReact || m.hasAngular || m.hasVue) ==> score <= 55.0 + 2.0 * m.iframeCount as real
  {
    RMin(m.scriptCount as real * 0.5, 20.0)
    + RMin(m.styleCount as real * 0.3, 10.0)
    + RMin(m.imageCount as real * 0.1, 10.0)
    + m.iframeCount as real * 2.0
    + (if m.hasReact || m.hasAngular || m.hasVue then 15.0 else 0.0)
    + RMin(m.domNodes as real * 0.01, 15.0)
  }

  /** jQuery on its own adds nothing to the score. */
  lemma JQueryAddsNothing(m: PageMetrics)
    ensures ComplexityScore(m.(hasJQuery := !m.hasJQuery)) == ComplexityScore(m)
  {
  }

  /** Scripts add at most 20 to the score and style sheets at most 10, however many there are. */
  lemma ScriptAndStyleCaps(m: PageMetrics, n: nat)
    ensures 0.0 <= ComplexityScore(m.(scriptCount := n)) - ComplexityScore(m.(scriptCount := 0)) <= 20.0
    ensures 0.0 <= ComplexityScore(m.(styleCount := n)) - ComplexityScore(m.(styleCount := 0)) <= 10.0
  {
  }

  /** Images add at most 10 to the score and DOM nodes at most 15, however many there are. */
  lemma ImageAndNodeCaps(m: PageMetrics, n: nat)
    ensures 0.0 <= ComplexityScore(m.(imageCount := n)) - ComplexityScore(m.(imageCount := 0)) <= 10.0
    ensures 0.0 <= ComplexityScore(m.(domNodes := n)) - ComplexityScore(m.(domNodes := 0)) <= 15.0
  {
  }

  /** The floor the first threshold a score passes puts under the delay (0: none). */
  function ComplexityFloor(score: real): (floor: int)
    ensures floor in {0, 3000, 5000, 8000}
    ensures floor > 0 <==> score > 15.0
  {
    if score > 50.0 then 8000 else if score > 30.0 then 5000 else if score > 15.0 then 3000 else 0
  }

  /** The base delay after the complexity analysis, as the if/elif chain raises it. */
  function FlooredDelay(base: int, score: real): int
  {
    if score > 50.0 then Max(base, 8000)
    else if score > 30.0 then Max(base, 5000)
    else if score > 15.0 then Max(base, 3000)
    else base
  }

  /** The floors are not additive: the chain raises the base to one floor only, the highest
      one the score reaches, and never beyond 8000 on its own account. */
  lemma FloorsAreNotAdditive(base: int, score: real)
    ensures score > 15.0 ==> FlooredDelay(base, score) == Max(base, ComplexityFloor(score))
    ensures score <= 15.0 ==> FlooredDelay(base, score) == base
    ensures base <= FlooredDelay(base, score) <= Max(base, 8000)
  {
  }

  lemma FlooredDelayMonotone(base: int, s1: real, s2: real)
    requires s1 <= s2
    ensures FlooredDelay(base, s1) <= FlooredDelay(base, s2)
  {
    FloorsAreNotAdditive(base, s1);
    FloorsAreNotAdditive(base, s2);
  }

  /**
    * calculate_smart_delay: the larger of the requested and the configured delay, raised
    * by the complexity floor when smart waiting is on and the analysis succeeds (None: the
    * evaluation raised), plus the extra wait, capped at 30000 ms.
    */
  function SmartDelay(delay: int, defaultDelay: int, smartWait: bool, extraWait: int, metrics: Option<PageMetrics>): (d: int)
    ensures d <= 30000
    ensures !smartWait || metrics.None? ==> d == Min(Max(delay, defaultDelay) + extraWait, 30000)
    ensures d >= Min(Max(delay, defaultDelay) + extraWait, 30000)
    ensures d <= Min(Max(Max(delay, defaultDelay), 8000) + extraWait, 30000)
  {
    var base := Max(delay, defaultDelay);
    var raised := if smartWait && metrics.Some? then FlooredDelay(base, ComplexityScore(metrics.value)) else base;
    Min(raised + extraWait, 30000)
  }

  /** A more complex page never gets a shorter delay. */
  lemma SmartDelayMonotoneInScore(delay: int, defaultDelay: int, extraWait: int, m1: PageMetrics, m2: PageMetrics)
    requires ComplexityScore(m1) <= ComplexityScore(m2)
    ensures SmartDelay(delay, defaultDelay, true, extraWait, Some(m1)) <= SmartDelay(delay, defaultDelay, true, extraWait, Some(m2))
  {
    FlooredDelayMonotone(Max(delay, defaultDelay), ComplexityScore(m1), ComplexityScore(m2));
  }

  /** With the request's own bounds, a very complex page (score above 50) gets at least
      8 s, and at least the extra wait on top of it, up to the 30 s cap. */
  lemma VeryComplexPageFloor(delay: int, defaultDelay: int, extraWait: int, m: PageMetrics)
    requires ComplexityScore(m) > 50.0
    requires 0 <= extraWait
    ensures SmartDelay(delay, defaultDelay, true, extraWait, Some(m)) >= Min(8000 + extraWait, 30000)
  {
  }

  // ---------------------------------------------------------------------------------------
  // The image wait (timeout 8000)

  /** The image script: true when there are no images, else when at least 70% are loaded. */
  predicate ImagesReady(imgs: seq<ImageElement>)
  {
    |imgs| == 0 || LoadedCount(imgs) as real / |imgs| as real >= 0.7
  }

  /** The image script as it runs: a forEach that counts the loaded images. */
  method CheckImages(imgs: seq<ImageElement>) returns (ready: bool)
    ensures ready == ImagesReady(imgs)
  {
    if |imgs| == 0 {
      return true;
    }
    var loadedCount := 0;
    var i := 0;
    while i < |imgs|
      invariant 0 <= i <= |imgs|
      invariant loadedCount == LoadedCount(imgs[..i])
    {
      var img := imgs[i];
      if img.complete && img.naturalHeight != 0 {
        loadedCount := loadedCount + 1;
      } else if img.src != "" && "data:" <= img.src {
        loadedCount := loadedCount + 1;
      } else if img.src == "" && img.dataSrc == "" {
        loadedCount := loadedCount + 1;
      }
      assert imgs[..i + 1][..i] == imgs[..i];
      i := i + 1;
    }
    assert imgs[..i] == imgs;
    ready := loadedCount as real / |imgs| as real >= 0.7;
  }

  /** The 70% threshold in integers, and a page whose images all count as loaded passes. */
  lemma ImagesReadyCounts(imgs: seq<ImageElement>)
    ensures ImagesReady(imgs) <==> |imgs| == 0 || 10 * LoadedCount(imgs) >= 7 * |imgs|
    ensures (forall i :: 0 <= i < |imgs| ==> ImageLoaded(imgs[i])) ==> ImagesReady(imgs)
  {
    if |imgs| > 0 {
      SeventyPercent(LoadedCount(imgs), |imgs|);
    }
    if forall i :: 0 <= i < |imgs| ==> ImageLoaded(imgs[i]) {
      LoadedCountAll(imgs);
    }
  }

  // ---------------------------------------------------------------------------------------
  // The lazy-load wait (timeout 5000)

  /** The lazy-loading markers the script queries, in its order. */
  const LazySelectors: seq<Selector> := [
    AttrPresent("data-src"), AttrEquals("loading", "lazy"), ClassToken("lazy"),
    ClassToken("lazyload"), ClassToken("lazyloading"), AttrPresent("data-lazy"),
    AttrPresent("data-original"), ClassToken("lozad"), ClassToken("lazy-loaded"),
    ClassToken("lazy-loading")
  ]

  /** An element the script treats as still loading: marked as loading by a lazy-load library,
      or carrying a deferred source, no source yet, and a top less than 200 px below the fold. */
  predicate StillLoading(e: DomElement, innerHeight: real)
  {
    || HasClass(e.classAttr, "lazyloading")
    || HasClass(e.classAttr, "lazy-loading")
    || ("data-src" in e.attributes && e.src == "" && e.top < innerHeight + 200.0)
  }

  /** The lazy-load script: no element matched by a lazy-load selector is still loading. */
  predicate LazyContentReady(page: PageState)
  {
    forall i, j :: 0 <= i < |LazySelectors| && 0 <= j < |page.elements| && Matches(page.elements[j], LazySelectors[i])
      ==> !StillLoading(page.elements[j], page.innerHeight)
  }

  /** The lazy-load script as it runs: for each selector, each matching element in document
      order, returning false at the first one still loading. */
  method CheckLazyContent(page: PageState) returns (ready: bool)
    ensures ready == LazyContentReady(page)
  {
    var s := 0;
    while s < |LazySelectors|
      invariant 0 <= s <= |LazySelectors|
      invariant forall i, j :: 0 <= i < s && 0 <= j < |page.elements| && Matches(page.elements[j], LazySelectors[i])
                  ==> !StillLoading(page.elements[j], page.innerHeight)
    {
      var k := 0;
      while k < |page.elements|
        invariant 0 <= k <= |page.elements|
        invariant forall j :: 0 <= j < k && Matches(page.elements[j], LazySelectors[s])
                    ==> !StillLoading(page.elements[j], page.innerHeight)
      {
        var el := page.elements[k];
        if Matches(el, LazySelectors[s]) {
          if HasClass(el.classAttr, "lazyloading") || HasClass(el.classAttr, "lazy-loading") {
            return false;
          }
          if "data-src" in el.attributes && el.src == "" && el.top < page.innerHeight + 200.0 {
            return false;
          }
        }
        k := k + 1;
      }
      s := s + 1;
    }
    return true;
  }

  /** Every element that is still loading carries one of the markers the script queries, so
      the selector list filters nothing out: the page is ready exactly when no element at all
      is still loading. */
  lemma LazyContentReadyIffNothingLoading(page: PageState)
    ensures LazyContentReady(page) <==> forall j :: 0 <= j < |page.elements| ==> !StillLoading(page.elements[j], page.innerHeight)
  {
    forall j | 0 <= j < |page.elements| && StillLoading(page.elements[j], page.innerHeight)
      ensures exists i :: 0 <= i < |LazySelectors| && Matches(page.elements[j], LazySelectors[i])
    {
      var e := page.elements[j];
      if HasClass(e.classAttr, "lazyloading") {
        assert Matches(e, LazySelectors[4]);
      } else if HasClass(e.classAttr, "lazy-loading") {
        assert Matches(e, LazySelectors[9]);
      } else {
        assert Matches(e, LazySelectors[0]);
      }
    }
  }

  // ---------------------------------------------------------------------------------------
  // The YouTube thumbnail wait (timeout 6000)

  /** `img[src*="ytimg.com"], img[src*="ggpht.com"]`. */
  predicate IsThumbnail(img: ImageElement)
  {
    Contains(img.src, "ytimg.com") || Contains(img.src, "ggpht.com")
  }

  predicate ThumbnailLoaded(img: ImageElement)
  {
    img.complete && img.naturalHeight > 0
  }

  /** The thumbnails among `imgs`, in document order. */
  function Thumbnails(imgs: seq<ImageElement>): (t: seq<ImageElement>)
    ensures |t| <= |imgs|
    ensures forall i :: 0 <= i < |t| ==> IsThumbnail(t[i])
    ensures forall x :: multiset(t)[x] == if IsThumbnail(x) then multiset(imgs)[x] else 0
  {
    if imgs == [] then []
    else
      var last := imgs[|imgs| - 1];
      assert imgs == imgs[..|imgs| - 1] + [last];
      Thumbnails(imgs[..|imgs| - 1]) + (if IsThumbnail(last) then [last] else [])
  }

  function LoadedThumbnailCount(thumbs: seq<ImageElement>): (n: nat)
    ensures n <= |thumbs|
  {
    if thumbs == [] then 0
    else LoadedThumbnailCount(thumbs[..|thumbs| - 1]) + (if ThumbnailLoaded(thumbs[|thumbs| - 1]) then 1 else 0)
  }

  /** The thumbnail script: true when there are no thumbnails, else when at least 80% are loaded. */
  predicate ThumbnailsReady(imgs: seq<ImageElement>)
  {
    var thumbs := Thumbnails(imgs);
    |thumbs| == 0 || LoadedThumbnailCount(thumbs) as real / |thumbs| as real >= 0.8
  }

  /** The thumbnail script as it runs: the query, then a forEach that counts the loaded ones. */
  method CheckThumbnails(imgs: seq<ImageElement>) returns (ready: bool)
    ensures ready == ThumbnailsReady(imgs)
  {
    var thumbnails := Thumbnails(imgs);
    if |thumbnails| == 0 {
      return true;
    }
    var loadedThumbnails := 0;
    var i := 0;
    while i < |thumbnails|
      invariant 0 <= i <= |thumbnails|
      invariant loadedThumbnails == LoadedThumbnailCount(thumbnails[..i])
    {
      var thumb := thumbnails[i];
      if thumb.complete && thumb.naturalHeight > 0 {
        loadedThumbnails := loadedThumbnails + 1;
      }
      assert thumbnails[..i + 1][..i] == thumbnails[..i];
      i := i + 1;
    }
    assert thumbnails[..i] == thumbnails;
    ready := loadedThumbnails as real / |thumbnails| as real >= 0.8;
  }

  /** Images that are not thumbnails never hold the thumbnail wait up, and the threshold is
      the integer test 5 * loaded >= 4 * thumbnails. */
  lemma ThumbnailsReadyCounts(imgs: seq<ImageElement>)
    ensures (forall i :: 0 <= i < |imgs| ==> !IsThumbnail(imgs[i])) ==> ThumbnailsReady(imgs)
    ensures var t := Thumbnails(imgs);
      ThumbnailsReady(imgs) <==> |t| == 0 || 5 * LoadedThumbnailCount(t) >= 4 * |t|
  {
    NoThumbnails(imgs);
    var t := Thumbnails(imgs);
    if |t| > 0 {
      EightyPercent(LoadedThumbnailCount(t), |t|);
    }
  }

  lemma {:induction false} NoThumbnails(imgs: seq<ImageElement>)
    ensures (forall i :: 0 <= i < |imgs| ==> !IsThumbnail(imgs[i])) ==> Thumbnails(imgs) == []
  {
    if imgs != [] {
      NoThumbnails(imgs[..|imgs| - 1]);
    }
  }

  // ---------------------------------------------------------------------------------------
  // final_content_check

  predicate IsYouTube(url: string)
  {
    Contains(url, "youtube.com") || Contains(url, "youtu.be")
  }

  predicate CheckPasses(c: ContentCheck, s: PageState)
  {
    match c
    case ImageCheck => ImagesReady(s.images)
    case LazyLoadCheck => LazyContentReady(s)
    case ThumbnailCheck => ThumbnailsReady(s.images)
  }

  /** A wait_for_function resolves when one of the states it polls before its timeout passes
      the script, and times out otherwise. */
  predicate WaitResolves(c: ContentCheck, polls: seq<PageState>)
  {
    exists i :: 0 <= i < |polls| && CheckPasses(c, polls[i])
  }

  /** The waits the final check would make if none of them timed out. */
  function ContentChain(url: string): seq<Event>
  {
    [ContentWait(ImageCheck, 8000), ContentWait(LazyLoadCheck, 5000)]
    + (if IsYouTube(url) then [ContentWait(ThumbnailCheck, 6000)] else [])
  }

  /**
    * final_content_check: the waits it makes, in order. Nothing happens with smart waiting
    * off; otherwise the chain runs until its first wait times out (the exception is swallowed
    * and the later checks are skipped), and the thumbnail wait belongs to the chain only for
    * a YouTube URL.
    */
  function FinalContentCheck(smartWait: bool, url: string, polls: ContentCheck -> seq<PageState>): (waits: seq<Event>)
    ensures !smartWait ==> waits == []
    ensures smartWait ==> 0 < |waits| && waits <= ContentChain(url)
    ensures forall i :: 0 <= i < |waits| - 1 ==> WaitResolves(waits[i].check, polls(waits[i].check))
    ensures 0 < |waits| < |ContentChain(url)| ==> !WaitResolves(waits[|waits| - 1].check, polls(waits[|waits| - 1].check))
    ensures ContentWait(ThumbnailCheck, 6000) in waits ==> IsYouTube(url)
  {
    if !smartWait then []
    else if !WaitResolves(ImageCheck, polls(ImageCheck)) then [ContentWait(ImageCheck, 8000)]
    else if !WaitResolves(LazyLoadCheck, polls(LazyLoadCheck)) then
      [ContentWait(ImageCheck, 8000), ContentWait(LazyLoadCheck, 5000)]
    else ContentChain(url)
  }
}
