/** The browser as the engine sees it: the page at one instant, with its top
    document and its `<frame>` documents.  The engine never asks more of the
    driver than what is here. */
module Page {
  import opened Prelude

  /** A WebElement reference; two references are equal when they name the same
      element of the same document load. */
  datatype Handle = Handle(id: nat)

  /** An element found by xpath: its tag, its `type` and `value` attributes and
      its text.  `readFault` is what every access to it raises, reading its tag,
      an attribute or its text included, and a script run on it (it went
      stale); `keyFault` is what only `clear` and `send_keys` raise (it cannot
      take keyboard input, e.g. it is hidden). */
  datatype Element = Element(
    tag: string,
    typeAttr: string,
    valueAttr: string,
    text: string,
    readFault: Option<DriverError>,
    keyFault: Option<DriverError>)

  /** A document: the lookup of its `<head>` and of each xpath.  An xpath that
      is not a key finds nothing (NoSuchElement). */
  datatype Doc = Doc(head: Result<Handle, DriverError>, elements: map<string, Result<Element, DriverError>>)

  /** A `<frame>` of the top document: the URL its content reports, and its document. */
  datatype Frame = Frame(url: Result<string, DriverError>, doc: Doc)

  datatype Page = Page(
    url: string,            // driver.current_url, always the top-level URL
    alertOpen: bool,        // driver.switch_to.alert succeeds
    cookies: Result<(), DriverError>,  // driver.get_cookies() answers, or the error it raises
    top: Doc,
    frames: seq<Frame>)

  /** The document the driver's commands go to: the top one, or the frame the
      engine last switched into.  A frame the page no longer has is an error. */
  function ActiveDoc(page: Page, frame: Option<nat>): (r: Result<Doc, DriverError>)
    ensures frame.None? ==> r == Ok(page.top)
    ensures frame.Some? ==> (r.Ok? <==> frame.value < |page.frames|)
  {
    match frame
    case None => Ok(page.top)
    case Some(i) => if i < |page.frames| then Ok(page.frames[i].doc) else Err(NoSuchFrame)
  }

  /** `find_element_by_tag_name('head')` in the active document. */
  function HeadLookup(page: Page, frame: Option<nat>): Result<Handle, DriverError> {
    match ActiveDoc(page, frame)
    case Err(e) => Err(e)
    case Ok(d) => d.head
  }

  /** `find_element_by_xpath(xpath)` in the active document. */
  function FindElement(page: Page, frame: Option<nat>, xpath: string): (r: Result<Element, DriverError>)
    ensures ActiveDoc(page, frame).Ok? && xpath !in ActiveDoc(page, frame).value.elements ==>
      r == Err(NoSuchElement)
  {
    match ActiveDoc(page, frame)
    case Err(e) => Err(e)
    case Ok(d) => if xpath in d.elements then d.elements[xpath] else Err(NoSuchElement)
  }

  /** The string the engine compares: the `value` attribute of an input, the
      text of anything else. */
  function ElementValue(e: Element): string {
    if e.tag == "input" then e.valueAttr else e.text
  }

  /** `check_page_changed()` given the stored head and the fresh lookup: changed
      when nothing is stored or the head cannot be found (NoSuchElement,
      Timeout); unchanged exactly when the same head is found again; any other
      driver exception propagates. */
  function PageChanged(stored: Option<Handle>, lookup: Result<Handle, DriverError>): (r: Result<bool, Fault>)
    ensures r == Ok(false) <==> stored.Some? && lookup == Ok(stored.value)
    ensures stored.None? ==> r == Ok(true)
    ensures stored.Some? && lookup.Err? && (lookup.error.NoSuchElement? || lookup.error.Timeout?) ==> r == Ok(true)
    ensures r.Err? <==> stored.Some? && lookup.Err? && !lookup.error.NoSuchElement? && !lookup.error.Timeout?
  {
    if stored.None? then Ok(true)
    else
      match lookup
      case Err(e) => if e.NoSuchElement? || e.Timeout? then Ok(true) else Err(Driver(e))
      case Ok(h) => Ok(h != stored.value)
  }

  // ---------------------------------------------------------------------------
  // check_url's frame scan

  /** The first frame from index i on whose URL contains `url`; the scan stops
      at the first frame whose URL cannot be read. */
  function ScanFrames(frames: seq<Frame>, url: string, i: nat): (r: Result<Option<nat>, DriverError>)
    requires i <= |frames|
    ensures r.Ok? && r.value.Some? ==>
      var k := r.value.value;
      && i <= k < |frames| && frames[k].url.Ok? && Contains(frames[k].url.value, url)
      && forall j :: i <= j < k ==> frames[j].url.Ok? && !Contains(frames[j].url.value, url)
    ensures r == Ok(None) ==>
      forall j :: i <= j < |frames| ==> frames[j].url.Ok? && !Contains(frames[j].url.value, url)
    ensures r.Err? ==> exists j :: (i <= j < |frames| && frames[j].url == Err(r.error) &&
      forall m :: i <= m < j ==> frames[m].url.Ok? && !Contains(frames[m].url.value, url))
    decreases |frames| - i
  {
    if i == |frames| then Ok(None)
    else
      match frames[i].url
      case Err(e) => Err(e)
      case Ok(u) => if Contains(u, url) then Ok(Some(i)) else ScanFrames(frames, url, i + 1)
  }

  /** What `check_url(url)` answers and which frame the driver is left in.  A
      top-level match keeps the current frame; otherwise the driver goes back to
      the top document and into the first matching frame.  Reading a frame URL
      may fail: NoSuchElement and StaleElement give False, anything else
      propagates. */
  function UrlCheck(page: Page, frame: Option<nat>, url: string): (r: (Result<bool, Fault>, Option<nat>))
    ensures Contains(page.url, url) ==> r == (Ok(true), frame)
    ensures !Contains(page.url, url) ==> (r.0 == Ok(true) <==> r.1.Some?)
    ensures r.0 == Ok(true) && r.1 != frame ==>
      r.1.Some? && r.1.value < |page.frames| && page.frames[r.1.value].url.Ok? &&
      Contains(page.frames[r.1.value].url.value, url)
  {
    if Contains(page.url, url) then (Ok(true), frame)
    else
      match ScanFrames(page.frames, url, 0)
      case Ok(Some(k)) => (Ok(true), Some(k))
      case Ok(None) => (Ok(false), None)
      case Err(e) => (if e.NoSuchElement? || e.StaleElement? then Ok(false) else Err(Driver(e)), None)
  }

  /** The frame check_url switches into is the first frame that matches. */
  lemma FirstMatchingFrame(page: Page, frame: Option<nat>, url: string, k: nat)
    requires !Contains(page.url, url)
    requires UrlCheck(page, frame, url) == (Ok(true), Some(k))
    ensures k < |page.frames| && Contains(page.frames[k].url.value, url)
    ensures forall j :: 0 <= j < k ==> page.frames[j].url.Ok? && !Contains(page.frames[j].url.value, url)
  {
  }

  /** With readable frame URLs, check_url is false exactly when neither the top
      URL nor any frame URL contains `url`. */
  lemma NoMatchIsFalse(page: Page, frame: Option<nat>, url: string)
    requires forall j :: 0 <= j < |page.frames| ==> page.frames[j].url.Ok?
    ensures UrlCheck(page, frame, url).0 == Ok(false) <==>
      !Contains(page.url, url) && forall j :: 0 <= j < |page.frames| ==> !Contains(page.frames[j].url.value, url)
  {
  }
}
