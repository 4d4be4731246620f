# PDFView: a verified model of the pdfjs-demo page viewer controller

The repository is a browser page viewer for PDF files. One class, `PDFView`,
wires buttons, mouse and wheel events to a handful of field updates and hands
the decoding and drawing of pages to pdf.js. This project models the stateful
controller under that wiring:

- **Page navigation with render coalescing.** `_pageNum`, `_totalPageNum`,
  `_pageRendering` and `_pageNumPending` (module `PageRendering`). The
  asynchronous render becomes two explicit steps. `RenderPage` is what
  `renderPage` does synchronously: it sets the busy flag, records the page in
  the ghost sequence `started` and writes the page-number label.
  `OnRenderComplete` is the completion callback. Prev and next are
  bounds-checked. A request made while a render is in flight overwrites the
  single pending slot (last write wins). On completion, the pending page, if
  any, is rendered and the slot is cleared.
- **Drag-to-pan.** `_isClick`, `_ol`, `_ot` and the canvas `style.left`/`style.top`
  (module `Panning`). This is pure integer translation with no clamping.
- **Export-URL discipline.** `_urlCache` and the browser's object-URL store
  (module `ObjectUrls`). The previous URL is revoked before a new one is
  created, so at most one is ever live.

`PdfView.PDFView` is the class itself. Its fields mirror the JavaScript
fields. Each handler is a method that updates the fields in place. Its
`ensures` ties the new state to a pure transition of the old state
(`PageRendering.PrevPage`, `Panning.MouseMove`, …) and spells out what the
source promises. `Valid()` is the class invariant:

- the page number stays in range;
- the render state is coherent: the page that ends up on screen once
  rendering settles is always the current page;
- the store holds at most one live URL, the one the last export made, and the
  cache holds the last URL made (which an export that threw has already revoked).

The lemmas in the three specification modules prove the properties that
span several calls: any run of events keeps the invariant, the coalescing
law, path independence of a drag, and no two export URLs ever live at once.

## Model

The pure transitions `PageRendering.RenderPage`, `PageRendering.QueueRenderPage`,
`PageRendering.Wheel`, `Panning.MouseDown`, `Panning.MouseMove` and `Panning.MouseUp`
have no row of their own: each is what the `PDFView` method of the same
handler produces, by that method's `ensures`, and that method's row covers it.

| member | source | states |
|---|---|---|
| PdfView.PDFView.constructor | src/index.js:4-34 | Starts on page 1 of `numPages` with the render of page 1 started, label 1, nothing pending, no drag and no export URL; the invariant holds |
| PdfView.PDFView.RenderPage | src/index.js:57-88 | Sets the busy flag, appends `num` to the started renders and shows `num` in the label; page number and pending slot are untouched |
| PdfView.PDFView.QueueRenderPage | src/index.js:90-96 | While busy: `num` replaces the pending slot and no render starts; when idle: a render of `num` starts; busy afterwards in both cases |
| PdfView.PDFView.OnRenderComplete | src/index.js:78-84 | With nothing pending: idle, no new render; with page `p` pending: exactly `p` is started, still busy, slot cleared; once idle, the label shows the current page |
| PdfView.PDFView.OnPrevPage | src/index.js:98-104 | On page 1 or below nothing changes at all; otherwise the page drops by one and a render of it is started or made pending |
| PdfView.PDFView.OnNextPage | src/index.js:106-112 | On the last page nothing changes at all; otherwise the page rises by one and a render of it is started or made pending; the page stays in `[1, total]` |
| PdfView.PDFView.HandleZoomIn | src/index.js:114-117 | The page number is kept and a render of exactly the current page is started or made pending |
| PdfView.PDFView.HandleZoomOut | src/index.js:119-122 | The page number is kept and a render of exactly the current page is started or made pending |
| PdfView.PDFView.HandleWheel | src/index.js:124-132 | Without Alt nothing changes; with Alt it zooms only on a positive delta below the upper bound or a negative delta above the lower one |
| PdfView.PDFView.HandleMouseDown | src/index.js:134-138 | Sets the click flag and stores the grab point `(x - offsetLeft, y - offsetTop)`; the canvas does not move |
| PdfView.PDFView.HandleMouseMove | src/index.js:140-145 | Without the click flag nothing changes; with it the canvas goes to the pointer minus the grab point |
| PdfView.PDFView.HandleMouseUp | src/index.js:147-149 | Clears the click flag and leaves the canvas where it is |
| PdfView.PDFView.MakeImgFileUrl | src/index.js:151-167 | The calls it makes to the store, which the store itself records, are the revocation of the cached URL, if any, and then the creation of a URL for `data` that no earlier call created, distinct from the cached one; afterwards that URL is the only live one, it is cached, and it is returned. With a `null` blob from `toBlob`, creation throws after the revocation: nothing is returned, no URL is live and the cache keeps naming the revoked URL |
| ObjectUrls.CreateObjectUrl | src/index.js:165 | In a valid store (every handle created so far lies below `next`), returns a URL at or above `next`, hence never created before and not live, now naming the blob; the store stays valid; every other URL keeps what it names; the creation is appended to the store's call record |
| ObjectUrls.RevokeObjectUrl | src/index.js:163 | The revoked URL no longer names anything; every other URL keeps what it names, and the store stays valid; the revocation is appended to the store's call record |
| ObjectUrls.EmptyStore | src/index.js:34 | A page that has exported nothing has a valid store with no live URL and no calls made |
| ObjectUrls.ExportKeepsInv | src/index.js:160-167 | One export keeps the export invariant: the store's recorded calls are those of the export history, and the cached URL was handed out earlier. With a blob, the new URL alone is live, names the data and is cached; without one, the cached URL is revoked, none is live and the cache is not reassigned |
| ObjectUrls.CreateBeforeRevokeBreaksInv | src/index.js:162-165 | Creating the new URL before revoking the cached one records calls no export history makes, so the export invariant does not hold afterwards; when the cached URL is live, two URLs are live between the two calls |
| ObjectUrls.ExportLogExtend | src/index.js:160-167 | An export appends to the call log the revocation of the cached URL, if any, then the creation of the new one unless it threw; it leaves only the new one live, or none after a throw, and caches the new one |
| PageRendering.Init | src/index.js:22-28 | The initial state is coherent and in range: page 1, rendering, `started == [1]` |
| PageRendering.PrevPage | src/index.js:98-104 | Keeps the page in range and the render state coherent |
| PageRendering.NextPage | src/index.js:106-112 | Keeps the page in range and the render state coherent |
| PageRendering.Zoom | src/index.js:114-122 | Keeps the render state coherent |
| PageRendering.RenderDone | src/index.js:78-84 | Completion keeps the render state coherent |
| PageRendering.Step | src/index.js:78-132 | Each click, wheel event or completion keeps the page in range, the state coherent and the page count fixed |
| PageRendering.RunKeepsInvariants | src/index.js:25-28 | Any sequence of prev/next/zoom/wheel events and completions keeps the page in range (in `[1, total]` when `total >= 1`) and the state coherent |
| PageRendering.CoalescingLaw | src/index.js:78-96 | Any non-empty sequence of requests during a render leaves exactly the last one pending; the completion then starts exactly that page and nothing else |
| PageRendering.ClicksDuringRender | src/index.js:90-122 | Clicks during a render start no render; the completion then starts at most one, and afterwards the last started page is the page the user is on |
| PageRendering.SettledShowsCurrentPage | src/index.js:78-96 | After any events from construction, the page on screen once rendering settles is the current page; whenever idle, the label shows it and it was the last render started |
| PageRendering.ThreeNextClicks | src/index.js:106-112 | Ten pages; three next clicks, each render completing: page 4, idle, renders of 1, 2, 3, 4 started |
| PageRendering.FiveThenSeven | src/index.js:78-96 | Requests for 5 and then 7 during a render: the completion starts only page 7 |
| Panning.NoPanBeforeMouseDown | src/index.js:140-145 | Before the first mouse-down (`_isClick` still `null`), no sequence of moves changes the drag state or moves the canvas |
| Panning.MoveWithoutClickIsInert | src/index.js:140-145 | A move without the button held changes nothing |
| Panning.DragTranslates | src/index.js:134-145 | After mouse-down at `(x, y)` with canvas offset `(L, T)`, a move to `(x + dx, y + dy)` puts the canvas at `(L + dx, T + dy)` |
| Panning.NoPanAfterMouseUp | src/index.js:140-149 | After mouse-up, no sequence of moves changes anything |
| Panning.DragFollowsLastPoint | src/index.js:134-145 | After mouse-down and any moves, the canvas sits at its offset translated by the last move's displacement; the grab point is kept |
| ObjectUrls.ExportLogLive | src/index.js:160-167 | After any exports, the only live URL is the one the last export made, and it is the cached one; if the last export threw, no URL is live |
| ObjectUrls.ExportLogNeverTwoLive | src/index.js:160-167 | At no point of any export history, not even between a revocation and the next creation, are two URLs live; since the store's recorded calls are that history, this holds of the calls the view makes |

## Left out

- Loading the document with pdf.js (src/index.js:1, 170-172). This is an external library. The page count becomes the constructor's `numPages`.
- Inside `renderPage`: `getPage`, `getViewport`, the canvas sizes, `devicePixelRatio` and the transform (src/index.js:59-76). These are library calls on floating-point sizes. Only the busy flag, the ghost record of started renders and the label are modelled.
- A render that fails. The source attaches no rejection handler to either promise, so after a failed `getPage` or render the busy flag stays set and every later request only overwrites the pending slot. The model has no failure step either: nothing in the source clears the flag or drops the pending page after a failure.
- A document with no pages. The constructor still starts a render of page 1 (src/index.js:22). The model lets `numPages` be 0 and keeps page 1 in that case. The outcome of pdf.js refusing that page is the failed render above.
- `scale` and its arithmetic (src/index.js:5, 115, 121, 126-128). These are floating point. Zooming is modelled as "render the current page again". The wheel handler's comparisons `scale < 2` and `scale > 0.5` are taken as boolean parameters. So the inverse law of zooming in and out is not stated.
- Element lookup and its logging (src/index.js:45-55), listener registration (src/index.js:10-19, 36-43) and `console.log`. This is DOM plumbing. The label is modelled as an integer field. The canvas position is modelled as integer pixels, without the `"px"` strings.
- `handleDownload` (src/index.js:151-158). `toBlob`, the link and its click are browser I/O. The image bytes reach `MakeImgFileUrl` as its parameter, `None` standing for the `null` that `toBlob` hands over for a canvas without pixels. The exception `createObjectURL` then throws is modelled as `MakeImgFileUrl` returning `None`; that it escapes the `toBlob` callback so the link is never clicked is not modelled.
- Browser coordinates. Pointer coordinates and `offsetLeft`/`offsetTop` are modelled as integers.
- The object-URL store. The store of `window.URL` is modelled as a value field of the view, which is its only client. The whole program makes one view (src/index.js:171). URLs are abstract handles, not `blob:` strings.
- Asynchrony. Render completion is an explicit method, `OnRenderComplete`, which requires a render in flight. Its preconditions are the ones the promise chain guarantees. Completions come in the order renders were started.
