/**
 * Page navigation with render coalescing, as pure state transitions.
 *
 * These functions are the specification of the `PDFView` methods that touch
 * `_pageNum`, `_totalPageNum`, `_pageRendering` and `_pageNumPending`. The
 * asynchronous render of the external PDF library is split into two steps:
 * `RenderPage` (what happens synchronously when a render starts) and
 * `RenderDone` (the completion callback).
 */
module PageRendering {
  import opened Common

  /** The navigation and rendering part of a viewer's state. */
  datatype Pages = Pages(
    pageNum: int,          // _pageNum: the page the user is on
    total: nat,            // _totalPageNum: page count of the document
    rendering: bool,       // _pageRendering: a render is in flight
    pending: Option<int>,  // _pageNumPending: the one coalesced request
    shown: int,            // text of the "page_num" element
    started: seq<int>)     // every page whose render was started, in order

  /** The page number stays within the document (a document without pages keeps page 1). */
  ghost predicate PageInRange(s: Pages) {
    1 <= s.pageNum && (s.pageNum <= s.total || s.pageNum == 1)
  }

  /**
   * The coalescing invariant: the label shows the page last started; no
   * request waits unless a render is in flight; and the page that will be on
   * screen once rendering settles (the pending one, or else the one last
   * started) is always the current page.
   */
  ghost predicate Coherent(s: Pages) {
    && |s.started| > 0
    && s.shown == Last(s.started)
    && (!s.rendering ==> s.pending == None)
    && (match s.pending
        case Some(p) => p == s.pageNum
        case None => Last(s.started) == s.pageNum)
  }

  /** The page that is on screen once every started and pending render has finished. */
  function Settled(s: Pages): int
    requires |s.started| > 0
  {
    match s.pending
    case Some(p) => p
    case None => Last(s.started)
  }

  /** The state right after construction: page 1 of `total`, its render started. */
  function Init(total: nat): (s: Pages)
    ensures Coherent(s) && PageInRange(s)
    ensures s.rendering && s.started == [1] && s.pageNum == 1 && s.total == total
  {
    Pages(1, total, true, None, 1, [1])
  }

  /** `renderPage(num)`, its synchronous part: mark busy, start the render, show `num`. */
  function RenderPage(s: Pages, num: int): Pages {
    s.(rendering := true, started := s.started + [num], shown := num)
  }

  /** `queueRenderPage(num)`: start at once when idle, else overwrite the pending slot. */
  function QueueRenderPage(s: Pages, num: int): Pages {
    if s.rendering then s.(pending := Some(num)) else RenderPage(s, num)
  }

  /** `onPrevPage`. */
  function PrevPage(s: Pages): (r: Pages)
    ensures PageInRange(s) ==> PageInRange(r)
    ensures Coherent(s) ==> Coherent(r)
  {
    if s.pageNum <= 1 then s
    else QueueRenderPage(s.(pageNum := s.pageNum - 1), s.pageNum - 1)
  }

  /** `onNextPage`. */
  function NextPage(s: Pages): (r: Pages)
    ensures PageInRange(s) ==> PageInRange(r)
    ensures Coherent(s) ==> Coherent(r)
  {
    if s.pageNum >= s.total then s
    else QueueRenderPage(s.(pageNum := s.pageNum + 1), s.pageNum + 1)
  }

  /** `handleZoomIn` and `handleZoomOut`, apart from the new scale: re-render the current page. */
  function Zoom(s: Pages): (r: Pages)
    ensures Coherent(s) ==> Coherent(r)
  {
    QueueRenderPage(s, s.pageNum)
  }

  /**
   * `handleWheel`. `belowMax` and `aboveMin` are the outcomes of the
   * comparisons `scale < 2` and `scale > 0.5`, since the scale itself is
   * not part of this model.
   */
  function Wheel(s: Pages, altKey: bool, wheelDelta: int, belowMax: bool, aboveMin: bool): Pages {
    if !altKey then s
    else if wheelDelta > 0 && belowMax then Zoom(s)
    else if wheelDelta < 0 && aboveMin then Zoom(s)
    else s
  }

  /** The completion callback of the render in flight. */
  function RenderDone(s: Pages): (r: Pages)
    requires s.rendering
    ensures Coherent(s) ==> Coherent(r)
  {
    var idle := s.(rendering := false);
    match idle.pending
    case None => idle
    case Some(p) => RenderPage(idle, p).(pending := None)
  }

  /** What can happen to a viewer: a user action or the end of the render in flight. */
  datatype Event =
    | PrevClicked
    | NextClicked
    | ZoomInClicked
    | ZoomOutClicked
    | Wheeled(altKey: bool, wheelDelta: int, belowMax: bool, aboveMin: bool)
    | RenderFinished

  /** One event. A completion arrives only for a render in flight; with none, it changes nothing. */
  function Step(s: Pages, e: Event): (r: Pages)
    ensures PageInRange(s) ==> PageInRange(r)
    ensures Coherent(s) ==> Coherent(r)
    ensures r.total == s.total
  {
    match e
    case PrevClicked => PrevPage(s)
    case NextClicked => NextPage(s)
    case ZoomInClicked => Zoom(s)
    case ZoomOutClicked => Zoom(s)
    case Wheeled(alt, delta, belowMax, aboveMin) => Wheel(s, alt, delta, belowMax, aboveMin)
    case RenderFinished => if s.rendering then RenderDone(s) else s
  }

  /** A sequence of events, in order. */
  function Run(s: Pages, events: seq<Event>): Pages
    decreases |events|
  {
    if events == [] then s else Run(Step(s, events[0]), events[1..])
  }

  /** `queueRenderPage` called once per element of `nums`, in order, with nothing completing. */
  function QueueAll(s: Pages, nums: seq<int>): Pages
    decreases |nums|
  {
    if nums == [] then s else QueueAll(QueueRenderPage(s, nums[0]), nums[1..])
  }

  /** Any sequence of clicks and completions keeps the page number in range and the state coherent. */
  lemma {:induction false} RunKeepsInvariants(s: Pages, events: seq<Event>)
    requires PageInRange(s) && Coherent(s)
    ensures PageInRange(Run(s, events)) && Coherent(Run(s, events))
    ensures Run(s, events).total == s.total
    ensures s.total >= 1 ==> 1 <= Run(s, events).pageNum <= s.total
    decreases |events|
  {
    if events != [] {
      RunKeepsInvariants(Step(s, events[0]), events[1..]);
    }
  }

  /** The coalescing law: requests made while a render is in flight leave only the last one pending. */
  lemma {:induction false} CoalescingLaw(s: Pages, nums: seq<int>)
    requires s.rendering && |nums| > 0
    ensures QueueAll(s, nums) == s.(pending := Some(Last(nums)))
    ensures RenderDone(QueueAll(s, nums)).started == s.started + [Last(nums)]
    ensures RenderDone(QueueAll(s, nums)).rendering
    ensures RenderDone(QueueAll(s, nums)).pending == None
    decreases |nums|
  {
    if |nums| > 1 {
      CoalescingLaw(s.(pending := Some(nums[0])), nums[1..]);
    }
  }

  /**
   * While a render is in flight, clicks start no render; when it then
   * completes, at most one further render starts, and it is of the page the
   * user is on by then.
   */
  lemma {:induction false} ClicksDuringRender(s: Pages, events: seq<Event>)
    requires Coherent(s) && s.rendering
    requires forall i :: 0 <= i < |events| ==> events[i] != RenderFinished
    ensures Run(s, events).rendering && Run(s, events).started == s.started
    ensures Coherent(Run(s, events))
    ensures RenderDone(Run(s, events)).started
              == s.started + (if Run(s, events).pending.Some? then [Run(s, events).pageNum] else [])
    ensures Last(RenderDone(Run(s, events)).started) == Run(s, events).pageNum
    decreases |events|
  {
    if events != [] {
      ClicksDuringRender(Step(s, events[0]), events[1..]);
    }
  }

  /**
   * After any events from construction, the page on screen once rendering
   * settles is the page the user is on, and whenever no render is in flight
   * the label already shows it.
   */
  lemma SettledShowsCurrentPage(total: nat, events: seq<Event>)
    ensures var s := Run(Init(total), events);
            && |s.started| > 0 && Settled(s) == s.pageNum
            && (!s.rendering ==> s.shown == s.pageNum && Last(s.started) == s.pageNum)
  {
    RunKeepsInvariants(Init(total), events);
  }

  /** Ten pages, three "next" clicks each followed by the render's completion: page 4, idle. */
  lemma ThreeNextClicks()
    ensures Run(Init(10), [RenderFinished, NextClicked, RenderFinished, NextClicked,
                           RenderFinished, NextClicked, RenderFinished])
            == Pages(4, 10, false, None, 4, [1, 2, 3, 4])
  {
  }

  /** Requests for 5 and then 7 during a render: the only render started next is of page 7. */
  lemma FiveThenSeven(s: Pages)
    requires s.rendering
    ensures RenderDone(QueueRenderPage(QueueRenderPage(s, 5), 7)).started == s.started + [7]
  {
    CoalescingLaw(s, [5, 7]);
    assert QueueAll(s, [5, 7]) == QueueRenderPage(QueueRenderPage(s, 5), 7);
  }
}
