/**
  The m3u8 extraction service: `getM3U8Url` drives a headless browser to the
  player page and runs the DOM scan there; the `/extract-m3u8` endpoint wraps
  it so that every answer is a JSON object with a `url` field. The browser is
  an input: what it delivers (launch and page outcomes, navigation events,
  navigation errors, the page snapshot or a failing evaluation) is given as a
  `BrowserRun`.
 */
module M3u8Service {
  import opened Wrappers
  import opened Text
  import opened DomScan

  const HqqDomain := "hqq.ac"

  datatype Headless = HeadlessNew | Headful
  datatype WaitUntil = NetworkIdle2 | DomContentLoaded

  /** The browser mode and the navigation wait condition chosen for a player URL. */
  datatype LaunchMode = LaunchMode(headless: Headless, waitUntil: WaitUntil)

  function LaunchModeFor(playerUrl: string): (m: LaunchMode)
    ensures Contains(playerUrl, HqqDomain) <==> m.headless == Headful
    ensures Contains(playerUrl, HqqDomain) <==> m.waitUntil == NetworkIdle2
    ensures !Contains(playerUrl, HqqDomain) ==> m == LaunchMode(HeadlessNew, DomContentLoaded)
  {
    if Contains(playerUrl, HqqDomain) then LaunchMode(Headful, NetworkIdle2)
    else LaunchMode(HeadlessNew, DomContentLoaded)
  }

  // ---------------------------------------------------------------- redirect tracking

  /** A page event seen by the hqq listeners: a frame navigation (main frame or not) or a load. */
  datatype NavEvent = FrameNavigated(isMainFrame: bool, url: string) | Loaded(url: string)

  /** The URL an event would set, if the listener looks at it at all. */
  function EventUrl(e: NavEvent): Option<string> {
    match e
    case FrameNavigated(isMain, url) => if isMain then Some(url) else None
    case Loaded(url) => Some(url)
  }

  /** The tracked URL of the hqq listeners. */
  class RedirectTracker {
    const playerUrl: string
    var finalUrl: string

    constructor (playerUrl: string)
      ensures this.playerUrl == playerUrl && finalUrl == playerUrl
    {
      this.playerUrl := playerUrl;
      finalUrl := playerUrl;
    }

    /** Both listeners: a URL different from the original and the current one replaces the current one. */
    method OnEvent(e: NavEvent)
      modifies this
      ensures finalUrl == Track(playerUrl, old(finalUrl), e)
    {
      var current := EventUrl(e);
      if current.Some? && current.value != playerUrl && current.value != finalUrl {
        finalUrl := current.value;
      }
    }
  }

  function Track(playerUrl: string, finalUrl: string, e: NavEvent): string {
    var current := EventUrl(e);
    if current.Some? && current.value != playerUrl && current.value != finalUrl then current.value else finalUrl
  }

  /** The tracked URL after a sequence of events. */
  function FinalUrlAfter(playerUrl: string, events: seq<NavEvent>): string {
    if events == [] then playerUrl
    else Track(playerUrl, FinalUrlAfter(playerUrl, events[..|events| - 1]), events[|events| - 1])
  }

  /** The URL of the last looked-at event whose URL differs from `playerUrl`. */
  function LastEventUrlOtherThan(playerUrl: string, events: seq<NavEvent>): Option<string> {
    if events == [] then None
    else
      var u := EventUrl(events[|events| - 1]);
      if u.Some? && u.value != playerUrl then u else LastEventUrlOtherThan(playerUrl, events[..|events| - 1])
  }

  /** The tracked URL is the URL of the last looked-at event that differs from the original, or
      the original when there is none: an event back to the original URL never resets it. */
  lemma {:induction false} FinalUrlIsLastMove(playerUrl: string, events: seq<NavEvent>)
    ensures FinalUrlAfter(playerUrl, events) == LastEventUrlOtherThan(playerUrl, events).GetOr(playerUrl)
  {
    if events != [] {
      FinalUrlIsLastMove(playerUrl, events[..|events| - 1]);
    }
  }

  /** Events that are neither a main-frame navigation nor a load never change the tracked URL. */
  lemma {:induction false} SubframeEventsIgnored(playerUrl: string, events: seq<NavEvent>)
    requires forall k :: 0 <= k < |events| ==> events[k].FrameNavigated? && !events[k].isMainFrame
    ensures FinalUrlAfter(playerUrl, events) == playerUrl
  {
    if events != [] {
      SubframeEventsIgnored(playerUrl, events[..|events| - 1]);
    }
  }

  /** Feeding the events to the listeners, one at a time in delivery order. */
  method TrackRedirects(playerUrl: string, events: seq<NavEvent>) returns (finalUrl: string)
    ensures finalUrl == FinalUrlAfter(playerUrl, events)
  {
    var tracker := new RedirectTracker(playerUrl);
    for i := 0 to |events|
      invariant tracker.playerUrl == playerUrl
      invariant tracker.finalUrl == FinalUrlAfter(playerUrl, events[..i])
    {
      assert events[..i + 1][..i] == events[..i];
      tracker.OnEvent(events[i]);
    }
    assert events[..|events|] == events;
    return tracker.finalUrl;
  }

  // ---------------------------------------------------------------- getM3U8Url

  /** What the browser does during one extraction. `events` are delivered while navigating and
      waiting; `navigationFails` says that `goto` or one of the hqq waits threw; `snapshot` is the
      page the scan sees, `None` when `page.evaluate` threw. */
  datatype BrowserRun = BrowserRun(
    launches: bool,
    opensPage: bool,
    events: seq<NavEvent>,
    navigationFails: bool,
    snapshot: Option<PageSnapshot>)

  /** One extraction's observable outcome: the returned URL, the player URL after the hqq
      update, and whether a browser was launched. */
  datatype Extraction = Extraction(url: Option<string>, playerUrlAfter: string, launched: bool)

  /** The player URL after the hqq waits: replaced by the tracked URL when it is truthy and differs,
      unless navigation threw first. */
  function PlayerUrlAfter(playerUrl: string, run: BrowserRun): (p: string)
    ensures p == playerUrl || (Contains(playerUrl, HqqDomain) && !run.navigationFails && p == FinalUrlAfter(playerUrl, run.events))
  {
    if Contains(playerUrl, HqqDomain) && run.launches && run.opensPage && !run.navigationFails then
      var f := FinalUrlAfter(playerUrl, run.events);
      if f != "" && f != playerUrl then f else playerUrl
    else playerUrl
  }

  /** getM3U8Url: a launch or page failure, or a failing evaluation, gives null; a navigation
      error does not stop the scan. Closing the browser in the `finally` block races a 2 s
      timeout and any failure there is caught and logged, so the close has no bearing on the
      result and is not part of the run. */
  function ExtractM3u8(playerUrl: string, run: BrowserRun): (r: Extraction)
    ensures r.url.Some? ==> r.launched
    ensures r.launched <==> run.launches
    ensures run.launches && run.opensPage && run.snapshot.Some? ==> r.url == Scan(run.snapshot.value).url
    ensures !run.launches || !run.opensPage || run.snapshot.None? ==> r.url.None?
  {
    if !run.launches then Extraction(None, playerUrl, false)
    else if !run.opensPage then Extraction(None, playerUrl, true)
    else
      var after := PlayerUrlAfter(playerUrl, run);
      match run.snapshot
      case None => Extraction(None, after, true)
      case Some(page) => Extraction(Scan(page).url, after, true)
  }

  /** A navigation error is logged and scanning goes on: the URL found is the scan's in both cases. */
  lemma NavigationErrorStillScans(playerUrl: string, run: BrowserRun)
    ensures ExtractM3u8(playerUrl, run.(navigationFails := true)).url == ExtractM3u8(playerUrl, run.(navigationFails := false)).url
    ensures run.launches && run.opensPage && run.snapshot.Some? ==>
      ExtractM3u8(playerUrl, run.(navigationFails := true)).url == Scan(run.snapshot.value).url
  {
  }

  /** Every URL the extraction returns is the scan's and contains ".m3u8" in some case. */
  lemma ExtractedUrlIsM3u8(playerUrl: string, run: BrowserRun)
    ensures var r := ExtractM3u8(playerUrl, run);
      r.url.Some? ==>
        && run.launches && run.opensPage && run.snapshot.Some?
        && r.url == Scan(run.snapshot.value).url
        && Contains(LowerAscii(r.url.value), M3u8)
  {
    var r := ExtractM3u8(playerUrl, run);
    if r.url.Some? {
      var page := run.snapshot.value;
      ScanFindsM3u8(page);
      var u := r.url.value;
      if Contains(u, M3u8) {
        LowerKeepsLowerContains(u, M3u8);
      }
    }
  }

  /** Lower-casing keeps every occurrence of a lower-case pattern. */
  lemma LowerKeepsLowerContains(s: string, sub: string)
    requires Contains(s, sub) && LowerAscii(sub) == sub
    ensures Contains(LowerAscii(s), sub)
  {
    ContainsHasIndex(s, sub);
    var i :| OccursAt(s, sub, i);
    assert LowerAscii(s)[i..i + |sub|] == LowerAscii(sub) by {
      forall k | 0 <= k < |sub| ensures LowerAscii(s)[i..i + |sub|][k] == LowerAscii(sub)[k] {
        assert s[i + k] == sub[k];
      }
    }
    ContainsWhenOccurs(LowerAscii(s), sub, i);
  }

  /** The extraction as the service runs it, with the redirect listeners fed in order. */
  method GetM3u8Url(playerUrl: string, run: BrowserRun) returns (r: Extraction)
    ensures r == ExtractM3u8(playerUrl, run)
  {
    var isHqq := Contains(playerUrl, HqqDomain);
    if !run.launches {
      return Extraction(None, playerUrl, false);
    }
    if !run.opensPage {
      return Extraction(None, playerUrl, true);
    }
    var current := playerUrl;
    var finalUrl := playerUrl;
    if isHqq {
      finalUrl := TrackRedirects(playerUrl, run.events);
      if !run.navigationFails && finalUrl != "" && finalUrl != playerUrl {
        current := finalUrl;
      }
    }
    if run.snapshot.None? {
      return Extraction(None, current, true);
    }
    var scan := ScanDom(run.snapshot.value);
    return Extraction(scan.url, current, true);
  }

  // ---------------------------------------------------------------- the endpoint

  /** A POST to /extract-m3u8: whether its JSON body parsed, and its `playerUrl` field. */
  datatype ExtractRequest = ExtractRequest(bodyParses: bool, playerUrl: Option<string>)

  /** The HTTP answer: status, the `url` field, the `error` field if any, and whether a browser started. */
  datatype Response = Response(status: int, url: Option<string>, error: Option<string>, launchedBrowser: bool)

  /** The handler and the error middleware: a body that does not parse reaches the middleware. */
  function HandleExtract(req: ExtractRequest, run: BrowserRun): (resp: Response)
    ensures resp.status == 200
    ensures !req.bodyParses ==> resp == Response(200, None, Some("Internal server error"), false)
    ensures req.bodyParses && (req.playerUrl.None? || req.playerUrl.value == "") ==> resp == Response(200, None, None, false)
    ensures resp.url.Some? ==> req.bodyParses && req.playerUrl.Some? && req.playerUrl.value != ""
    ensures req.bodyParses && req.playerUrl.Some? && req.playerUrl.value != "" ==>
      resp == Response(200, ExtractM3u8(req.playerUrl.value, run).url, None, ExtractM3u8(req.playerUrl.value, run).launched)
  {
    if !req.bodyParses then Response(200, None, Some("Internal server error"), false)
    else if req.playerUrl.None? || req.playerUrl.value == "" then Response(200, None, None, false)
    else
      var e := ExtractM3u8(req.playerUrl.value, run);
      Response(200, e.url, None, e.launched)
  }
}
