/**
 * The `PDFView` controller: one object whose event handlers update its
 * fields in place. Each handler is specified by the pure transition it
 * performs on `Pages()` (navigation and rendering, see PageRendering),
 * `DragView()` (drag-to-pan, see Panning) or the object-URL store
 * (see ObjectUrls), and states the source's promise about its fields.
 */
module PdfView {
  import opened Common
  import PageRendering
  import Panning
  import opened ObjectUrls

  class PDFView {
    // navigation and rendering
    var pageNum: int                // _pageNum
    var totalPageNum: nat           // _totalPageNum
    var pageRendering: bool         // _pageRendering
    var pageNumPending: Option<int> // _pageNumPending
    var shownPage: int              // text of the "page_num" element
    ghost var started: seq<int>     // every page whose render was started, in order

    // drag-to-pan
    var isClick: bool               // _isClick
    var ol: int                     // _ol
    var ot: int                     // _ot
    var canvasLeft: Option<int>     // canvas style.left, px
    var canvasTop: Option<int>      // canvas style.top, px

    // export
    var urlCache: Option<Handle>    // _urlCache
    var urls: UrlStore              // window.URL's object-URL store
    ghost var outcomes: seq<Outcome> // what each makeImgFileUrl call made, in order

    ghost function Pages(): PageRendering.Pages
      reads this`pageNum, this`totalPageNum, this`pageRendering, this`pageNumPending, this`shownPage, this`started
    {
      PageRendering.Pages(pageNum, totalPageNum, pageRendering, pageNumPending, shownPage, started)
    }

    ghost function DragView(): Panning.Drag
      reads this`isClick, this`ol, this`ot, this`canvasLeft, this`canvasTop
    {
      Panning.Drag(isClick, ol, ot, canvasLeft, canvasTop)
    }

    /** The viewer's invariant: page in range, renders coalesced coherently, at most one live export URL. */
    ghost predicate Valid()
      reads this`pageNum, this`totalPageNum, this`pageRendering, this`pageNumPending, this`shownPage, this`started
      reads this`urlCache, this`urls, this`outcomes
    {
      && PageRendering.PageInRange(Pages())
      && PageRendering.Coherent(Pages())
      && ExportsValid()
    }

    /** The store holds exactly what the exports so far left live, and the cache holds the last URL made. */
    ghost predicate ExportsValid()
      reads this`urlCache, this`urls, this`outcomes
    {
      ExportsInv(urlCache, urls, outcomes)
    }

    /** `new PDFView(pdfDoc)` for a document of `numPages` pages: page 1, its render started. */
    constructor (numPages: nat)
      ensures Valid()
      ensures Pages() == PageRendering.Init(numPages)
      ensures pageNum == 1 && totalPageNum == numPages
      ensures pageRendering && pageNumPending == None && started == [1] && shownPage == 1
      ensures DragView() == Panning.Released()
      ensures urlCache == None && urls.objects == map[] && urls.calls == []
    {
      pageNum := 1;
      totalPageNum := numPages;
      pageRendering := false;
      pageNumPending := None;
      shownPage := pageNum;
      started := [];
      isClick := false;
      ol, ot := 0, 0;
      canvasLeft, canvasTop := None, None;
      urlCache := None;
      urls := EmptyStore();
      outcomes := [];
      new;
      RenderPage(pageNum);
    }

    /** `renderPage(num)`, its synchronous part: busy, render of `num` started, label shows `num`. */
    method RenderPage(num: int)
      modifies this`pageRendering, this`started, this`shownPage
      ensures Pages() == PageRendering.RenderPage(old(Pages()), num)
      ensures pageRendering && started == old(started) + [num] && shownPage == num
      ensures pageNum == old(pageNum) && pageNumPending == old(pageNumPending)
    {
      pageRendering := true;
      started := started + [num];
      shownPage := num;
    }

    /** `queueRenderPage(num)`: render now when idle; otherwise `num` replaces whatever was pending. */
    method QueueRenderPage(num: int)
      modifies this`pageRendering, this`pageNumPending, this`started, this`shownPage
      ensures Pages() == PageRendering.QueueRenderPage(old(Pages()), num)
      ensures pageRendering && pageNum == old(pageNum)
      ensures old(pageRendering) ==> pageNumPending == Some(num) && started == old(started)
      ensures !old(pageRendering) ==> pageNumPending == old(pageNumPending) && started == old(started) + [num]
    {
      if pageRendering {
        pageNumPending := Some(num);
      } else {
        RenderPage(num);
      }
    }

    /** The completion callback of the render in flight. */
    method OnRenderComplete()
      requires Valid() && pageRendering
      modifies this`pageRendering, this`pageNumPending, this`started, this`shownPage
      ensures Valid()
      ensures Pages() == PageRendering.RenderDone(old(Pages()))
      ensures pageNum == old(pageNum) && pageNumPending == None
      ensures old(pageNumPending) == None ==> !pageRendering && started == old(started)
      ensures old(pageNumPending).Some? ==>
                pageRendering && started == old(started) + [old(pageNumPending).value]
      ensures !pageRendering ==> shownPage == pageNum
    {
      pageRendering := false;
      if pageNumPending.Some? {
        RenderPage(pageNumPending.value);
        pageNumPending := None;
      }
    }

    /** `onPrevPage`: nothing at all happens on the first page. */
    method OnPrevPage()
      requires Valid()
      modifies this`pageNum, this`pageRendering, this`pageNumPending, this`started, this`shownPage
      ensures Valid()
      ensures Pages() == PageRendering.PrevPage(old(Pages()))
      ensures old(pageNum) <= 1 ==> unchanged(this)
      ensures old(pageNum) > 1 ==> pageNum == old(pageNum) - 1 && pageRendering
      ensures old(pageNum) > 1 && old(pageRendering) ==>
                pageNumPending == Some(pageNum) && started == old(started)
      ensures old(pageNum) > 1 && !old(pageRendering) ==> started == old(started) + [pageNum]
    {
      if pageNum <= 1 {
        return;
      }
      pageNum := pageNum - 1;
      QueueRenderPage(pageNum);
    }

    /** `onNextPage`: nothing at all happens on the last page. */
    method OnNextPage()
      requires Valid()
      modifies this`pageNum, this`pageRendering, this`pageNumPending, this`started, this`shownPage
      ensures Valid()
      ensures Pages() == PageRendering.NextPage(old(Pages()))
      ensures old(pageNum) >= totalPageNum ==> unchanged(this)
      ensures old(pageNum) < totalPageNum ==> pageNum == old(pageNum) + 1 && pageRendering
      ensures old(pageNum) < totalPageNum && old(pageRendering) ==>
                pageNumPending == Some(pageNum) && started == old(started)
      ensures old(pageNum) < totalPageNum && !old(pageRendering) ==> started == old(started) + [pageNum]
      ensures totalPageNum >= 1 ==> 1 <= pageNum <= totalPageNum
    {
      if pageNum >= totalPageNum {
        return;
      }
      pageNum := pageNum + 1;
      QueueRenderPage(pageNum);
    }

    /** `handleZoomIn`, apart from `scale += 0.1`: the current page is rendered again. */
    method HandleZoomIn()
      requires Valid()
      modifies this`pageRendering, this`pageNumPending, this`started, this`shownPage
      ensures Valid()
      ensures Pages() == PageRendering.Zoom(old(Pages()))
      ensures pageNum == old(pageNum) && pageRendering
      ensures old(pageRendering) ==> pageNumPending == Some(pageNum) && started == old(started)
      ensures !old(pageRendering) ==> started == old(started) + [pageNum]
    {
      QueueRenderPage(pageNum);
    }

    /** `handleZoomOut`, apart from `scale -= 0.1`: the current page is rendered again. */
    method HandleZoomOut()
      requires Valid()
      modifies this`pageRendering, this`pageNumPending, this`started, this`shownPage
      ensures Valid()
      ensures Pages() == PageRendering.Zoom(old(Pages()))
      ensures pageNum == old(pageNum) && pageRendering
      ensures old(pageRendering) ==> pageNumPending == Some(pageNum) && started == old(started)
      ensures !old(pageRendering) ==> started == old(started) + [pageNum]
    {
      QueueRenderPage(pageNum);
    }

    /**
     * `handleWheel`: with Alt held, wheel up zooms in and wheel down zooms out,
     * each only inside the scale bounds. `scaleBelowMax` and `scaleAboveMin`
     * stand for `scale < 2` and `scale > 0.5`.
     */
    method HandleWheel(altKey: bool, wheelDelta: int, scaleBelowMax: bool, scaleAboveMin: bool)
      requires Valid()
      modifies this`pageRendering, this`pageNumPending, this`started, this`shownPage
      ensures Valid()
      ensures Pages() == PageRendering.Wheel(old(Pages()), altKey, wheelDelta, scaleBelowMax, scaleAboveMin)
      ensures !altKey ==> unchanged(this)
      ensures pageNum == old(pageNum)
    {
      if altKey {
        if wheelDelta > 0 && scaleBelowMax {
          HandleZoomIn();
        } else if wheelDelta < 0 && scaleAboveMin {
          HandleZoomOut();
        }
      }
    }

    // The drag fields carry no invariant and Valid() reads none of them, so the
    // mouse handlers below keep Valid() by their modifies frames alone.

    /** `handleMouseDown` at client point (clientX, clientY), the canvas being at (offsetLeft, offsetTop). */
    method HandleMouseDown(clientX: int, clientY: int, offsetLeft: int, offsetTop: int)
      modifies this`isClick, this`ol, this`ot
      ensures DragView() == Panning.MouseDown(old(DragView()), clientX, clientY, offsetLeft, offsetTop)
      ensures isClick && ol == clientX - offsetLeft && ot == clientY - offsetTop
      ensures canvasLeft == old(canvasLeft) && canvasTop == old(canvasTop)
    {
      isClick := true;
      ol := clientX - offsetLeft;
      ot := clientY - offsetTop;
    }

    /** `handleMouseMove` to (clientX, clientY): while the button is held, the grab point follows the pointer. */
    method HandleMouseMove(clientX: int, clientY: int)
      modifies this`canvasLeft, this`canvasTop
      ensures DragView() == Panning.MouseMove(old(DragView()), clientX, clientY)
      ensures !old(isClick) ==> unchanged(this)
      ensures old(isClick) ==> canvasLeft == Some(clientX - ol) && canvasTop == Some(clientY - ot)
      ensures isClick == old(isClick) && ol == old(ol) && ot == old(ot)
    {
      if isClick {
        canvasLeft := Some(clientX - ol);
        canvasTop := Some(clientY - ot);
      }
    }

    /** `handleMouseUp`: the drag ends; the canvas stays where it is. */
    method HandleMouseUp()
      modifies this`isClick
      ensures DragView() == Panning.MouseUp(old(DragView()))
      ensures !isClick && canvasLeft == old(canvasLeft) && canvasTop == old(canvasTop)
    {
      isClick := false;
    }

    /**
     * `makeImgFileUrl(data)`: revoke the cached URL, if any, then create and
     * cache a URL for `data`, which is afterwards the only live one. `data` is
     * `None` when the canvas has no pixels and `toBlob` hands over `null`;
     * `createObjectURL` then throws after the revocation, which `url == None`
     * stands for: no URL is live and the cache still names the revoked one.
     */
    method MakeImgFileUrl(data: Option<Blob>) returns (url: Option<Handle>)
      requires Valid()
      modifies this`urlCache, this`urls, this`outcomes
      ensures Valid()
      ensures url.Some? <==> data.Some?
      ensures urls.calls == old(urls.calls)
                + (if old(urlCache).Some? then [Revoked(old(urlCache).value)] else [])
                + (if url.Some? then [Created(url.value)] else [])
      ensures data.Some? ==> && url.Some? && url.value >= old(urls.next) && urlCache == url
                             && urls.objects.Keys == {url.value} && urls.objects[url.value] == data.value
      ensures data.Some? && old(urlCache).Some? ==> url.value != old(urlCache).value
      ensures url.Some? ==> Created(url.value) !in old(urls.calls)
      ensures data.None? ==> urlCache == old(urlCache) && urls.objects.Keys == {}
    {
      ExportKeepsInv(urlCache, urls, outcomes, data);
      if urlCache.Some? {
        urls := RevokeObjectUrl(urls, urlCache.value);
      }
      if data.None? {
        // createObjectURL(null) throws: nothing is created and the cache is not assigned
        outcomes := outcomes + [None];
        return None;
      }
      var created := CreateObjectUrl(urls, data.value);
      urls := created.0;
      urlCache := Some(created.1);
      outcomes := outcomes + [urlCache];
      url := urlCache;
    }
  }
}
