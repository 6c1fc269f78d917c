/**
  * The document as the page scripts of the capture engine see it: elements as plain records,
  * the CSS selectors those scripts query, and the "image is loaded" rule that two of the
  * scripts share.
  */
module Dom {
  import opened Common

  /** An `<img>` element: `complete`, `naturalHeight`, its `src` and its `data-src`
      ("" when absent, which is how a script sees a falsy one). */
  datatype ImageElement = ImageElement(complete: bool, naturalHeight: int, src: string, dataSrc: string)

  /** Any element: its `id` and `class` attributes, its other attributes, its `src` property
      ("" when absent), the top of its bounding box and whether it is rendered
      (`offsetParent !== null`). */
  datatype DomElement = DomElement(
    id: string,
    classAttr: string,
    attributes: map<string, string>,
    src: string,
    top: real,
    visible: bool)

  /** The document at the moment a page script is evaluated: `document.readyState`, every
      element and every image in document order, `window.innerHeight`, and
      `window.jQuery.active` (None when the page has no `window.jQuery`). */
  datatype PageState = PageState(
    readyState: string,
    elements: seq<DomElement>,
    images: seq<ImageElement>,
    innerHeight: real,
    jQueryActive: Option<int>)

  /** The ASCII whitespace that separates the tokens of a class attribute. */
  predicate IsHtmlSpace(c: char)
  {
    c == ' ' || c == '\t' || c == '\n' || c == '\r' || c as int == 12
  }

  /** `classList.contains(name)`: `name` is one whole whitespace-separated token of `classAttr`. */
  predicate HasClass(classAttr: string, name: string)
  {
    exists i :: 0 <= i <= |classAttr| && TokenAt(classAttr, name, i)
  }

  /** `name` occurs in `classAttr` at index `i`, delimited by whitespace or the ends. */
  predicate TokenAt(classAttr: string, name: string, i: int)
  {
    && 0 <= i && i + |name| <= |classAttr| && classAttr[i..i + |name|] == name
    && (i == 0 || IsHtmlSpace(classAttr[i - 1]))
    && (i + |name| == |classAttr| || IsHtmlSpace(classAttr[i + |name|]))
  }

  /** The selector forms the page scripts use. */
  datatype Selector =
    | AttrPresent(name: string)              // [name]
    | AttrEquals(name: string, value: string) // [name="value"]
    | ClassToken(name: string)               // .name
    | ClassContains(fragment: string)        // [class*="fragment"]
    | IdEquals(name: string)                 // #name

  predicate Matches(e: DomElement, s: Selector)
  {
    match s
    case AttrPresent(n) => n in e.attributes
    case AttrEquals(n, v) => n in e.attributes && e.attributes[n] == v
    case ClassToken(n) => HasClass(e.classAttr, n)
    case ClassContains(f) => Contains(e.classAttr, f)
    case IdEquals(n) => e.id == n
  }

  /** The rule both image scripts apply: an image counts as loaded when it has decoded
      pixels, when its source is a `data:` URL, or when it has neither a source nor a
      deferred source (a placeholder). */
  predicate ImageLoaded(img: ImageElement)
  {
    || (img.complete && img.naturalHeight != 0)
    || (img.src != "" && "data:" <= img.src)
    || (img.src == "" && img.dataSrc == "")
  }

  /** How many of `imgs` count as loaded. */
  function LoadedCount(imgs: seq<ImageElement>): (n: nat)
    ensures n <= |imgs|
  {
    if imgs == [] then 0
    else LoadedCount(imgs[..|imgs| - 1]) + (if ImageLoaded(imgs[|imgs| - 1]) then 1 else 0)
  }

  lemma {:induction false} LoadedCountAll(imgs: seq<ImageElement>)
    requires forall i :: 0 <= i < |imgs| ==> ImageLoaded(imgs[i])
    ensures LoadedCount(imgs) == |imgs|
  {
    if imgs != [] {
      LoadedCountAll(imgs[..|imgs| - 1]);
    }
  }

  /** For a positive total, `count / total >= p / q` is the integer test `q * count >= p * total`. */
  lemma RatioAtLeast(count: nat, total: nat, p: nat, q: nat)
    requires total > 0 && q > 0
    ensures count as real / total as real >= p as real / q as real <==> q * count >= p * total
  {
    var t, c := total as real, count as real;
    var r, k := c / t, p as real / q as real;
    assert c == r * t;
    assert p as real == k * q as real;
    if r >= k {
      assert (r - k) * t >= 0.0;
      assert c >= k * t;
      assert (q * count) as real == q as real * c >= q as real * (k * t) == p as real * t;
    } else {
      assert (k - r) * t > 0.0;
      assert c < k * t;
      assert (q * count) as real == q as real * c < q as real * (k * t) == p as real * t;
    }
  }

  /** `count / total >= 0.7` on a positive total is the integer test `10 * count >= 7 * total`. */
  lemma SeventyPercent(count: nat, total: nat)
    requires total > 0
    ensures count as real / total as real >= 0.7 <==> 10 * count >= 7 * total
  {
    RatioAtLeast(count, total, 7, 10);
  }

  /** `count / total >= 0.8` on a positive total is the integer test `5 * count >= 4 * total`. */
  lemma EightyPercent(count: nat, total: nat)
    requires total > 0
    ensures count as real / total as real >= 0.8 <==> 5 * count >= 4 * total
  {
    RatioAtLeast(count, total, 4, 5);
  }
}
