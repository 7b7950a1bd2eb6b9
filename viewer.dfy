/**
 * The viewer's mutable state and the operations that change it: chunked loading,
 * the visible-slice update, card placement and the auto-scroll animation.
 *
 * Units: scroll offsets and element heights of the scroll code are in tenths of a
 * pixel, so the 0.4 px step is the integer 4; card tops and the surface height are
 * in pixels, as the markup writes them.
 */
module Viewer {
  import opened JsBuiltins
  import opened Formatter
  import Chunking
  import Viewport

  /** The configuration object. */
  const ChunkSize: nat := 1000
  const BufferSize: nat := 100
  const RecordHeight: nat := 110               // px
  const Subpixel: nat := 10                    // scroll units per px
  const RowHeight: nat := RecordHeight * Subpixel
  /** autoScroll's constants: 0.4 px per frame, "near the end" within 25 px. */
  const ScrollSpeed: int := 4
  const NearEndMargin: int := 250

  /** cancelAnimationFrame(id), guarded as stopAutoScroll guards it: id 0 stands for
      "no frame requested yet" (the field is still undefined). */
  function Cancel(pending: set<nat>, id: nat): (p: set<nat>)
    ensures p <= pending && id !in p - {0}
    ensures forall f :: f in pending && f != id ==> f in p
    ensures id == 0 ==> p == pending
  {
    if id != 0 then pending - {id} else pending
  }

  class App {
    // the `state` object
    var allData: seq<DisplayRecord>
    var visibleData: seq<DisplayRecord>
    var totalRecords: nat
    var scrollPosition: int
    var loading: bool
    var autoScrolling: bool
    var animationFrameId: nat
    // the host's animation-frame queue: ids of callbacks requested and not yet run or cancelled
    var pending: set<nat>
    var nextFrameId: nat
    // messages posted to the worker, in order
    var postedChunks: seq<seq<RawRecord>>
    // numeric values written into the page: surface height and card tops (px)
    var contentHeight: int
    var renderedTops: seq<int>
    // the element autoScroll drives (elements.content) and the scroller's height
    var containerPresent: bool
    var scrollTop: int
    var clientHeight: int
    var scrollHeight: int
    var viewportHeight: int

    /** Frame ids are handed out once each, counting up from 1. */
    ghost predicate Valid()
      reads this
    {
      0 < nextFrameId && animationFrameId < nextFrameId &&
      forall f :: f in pending ==> 0 < f < nextFrameId
    }

    /** The animation runs as one chain: while auto-scrolling exactly the last requested
        frame is pending, otherwise none. */
    ghost predicate SingleChain()
      reads this
    {
      pending == if autoScrolling then {animationFrameId} else {}
    }

    /** While auto-scrolling, the last requested frame is still queued. Every operation
        keeps this, the unguarded start included; a single chain is the special case of
        exactly that frame being queued. */
    ghost predicate Live()
      reads this
    {
      autoScrolling ==> animationFrameId in pending
    }

    predicate AtEnd()
      reads this
    {
      scrollTop + clientHeight >= scrollHeight
    }

    /** The page shows the window for scroll position `top`: the records of the visible
        range, each placed at the top of its own row. */
    ghost predicate ShowsWindow(top: int)
      reads this
    {
      allData != [] &&
      var w := Viewport.VisibleRange(|allData|, top, viewportHeight, RowHeight, BufferSize).value;
      visibleData == Viewport.Visible(allData, top, viewportHeight, RowHeight, BufferSize) &&
      |renderedTops| == |visibleData| &&
      Viewport.PlacedFrom(renderedTops, w.start, RecordHeight)
    }

    /** The state the page starts with, given the layout the browser reports. */
    constructor (containerPresent: bool, clientHeight: int, scrollHeight: int, viewportHeight: int)
      ensures Valid() && SingleChain()
      ensures allData == [] && visibleData == [] && totalRecords == 0 && scrollPosition == 0
      ensures !loading && !autoScrolling && animationFrameId == 0 && pending == {} && nextFrameId == 1
      ensures postedChunks == [] && contentHeight == 0 && renderedTops == [] && scrollTop == 0
      ensures this.containerPresent == containerPresent && this.clientHeight == clientHeight
      ensures this.scrollHeight == scrollHeight && this.viewportHeight == viewportHeight
    {
      allData, visibleData, totalRecords, scrollPosition := [], [], 0, 0;
      loading, autoScrolling, animationFrameId := false, false, 0;
      pending, nextFrameId := {}, 1;
      postedChunks, contentHeight, renderedTops := [], 0, [];
      this.containerPresent, scrollTop := containerPresent, 0;
      this.clientHeight, this.scrollHeight, this.viewportHeight := clientHeight, scrollHeight, viewportHeight;
    }

    /** renderItems: one card per visible record, card i at the top of row startIndex + i. */
    method RenderItems(startIndex: int)
      modifies this`renderedTops
      ensures |renderedTops| == |visibleData|
      ensures Viewport.PlacedFrom(renderedTops, startIndex, RecordHeight)
    {
      var tops: seq<int> := [];
      var i := 0;
      while i < |visibleData|
        invariant 0 <= i <= |visibleData| && |tops| == i
        invariant Viewport.PlacedFrom(tops, startIndex, RecordHeight)
      {
        tops := tops + [(startIndex + i) * RecordHeight];
        i := i + 1;
      }
      renderedTops := tops;
    }

    /** updateVisibleItems: nothing happens on an empty store; otherwise the visible range
        is sliced out of the store and rendered. With the offset inside the content, the
        slice is the window's records in order and its cards tile the rows of the surface. */
    method UpdateVisibleItems()
      modifies this`visibleData, this`renderedTops
      ensures allData == [] ==> visibleData == old(visibleData) && renderedTops == old(renderedTops)
      ensures allData != [] ==> ShowsWindow(scrollPosition)
      ensures allData != [] && 0 <= scrollPosition <= |allData| * RowHeight && 0 <= viewportHeight ==>
                var w := Viewport.VisibleRange(|allData|, scrollPosition, viewportHeight, RowHeight, BufferSize).value;
                |visibleData| == w.end - w.start + 1 >= 1 &&
                (forall k :: 0 <= k < |visibleData| ==> visibleData[k] == allData[w.start + k]) &&
                (forall k :: 0 <= k < |renderedTops| ==>
                   0 <= renderedTops[k] && renderedTops[k] + RecordHeight <= |allData| * RecordHeight) &&
                (forall j, k :: 0 <= j < k < |renderedTops| ==> renderedTops[j] < renderedTops[k])
    {
      if |allData| == 0 {
        return;
      }
      var top := scrollPosition;
      var range := Viewport.VisibleRange(|allData|, top, viewportHeight, RowHeight, BufferSize);
      var startIndex, endIndex := range.value.start, range.value.end;
      visibleData := Slice(allData, startIndex, endIndex + 1);
      RenderItems(startIndex);
      if 0 <= top <= |allData| * RowHeight && 0 <= viewportHeight {
        Viewport.VisibleIsWindow(allData, top, viewportHeight, RowHeight, BufferSize);
        Viewport.CardsInsideSurface(renderedTops, startIndex, RecordHeight, |allData|);
        Viewport.CardsStacked(renderedTops, startIndex, RecordHeight);
      }
    }

    /** The scroller's scroll listener: record the offset, then refresh the window. */
    method OnScroll(top: int)
      modifies this`scrollPosition, this`visibleData, this`renderedTops
      ensures scrollPosition == top
      ensures allData == [] ==> visibleData == old(visibleData) && renderedTops == old(renderedTops)
      ensures allData != [] ==> ShowsWindow(scrollPosition)
    {
      scrollPosition := top;
      UpdateVisibleItems();
    }

    /** initVirtualScroll: size the surface to the whole store, then render the window. */
    method InitVirtualScroll()
      requires containerPresent
      modifies this`contentHeight, this`visibleData, this`renderedTops
      ensures contentHeight == |allData| * RecordHeight
      ensures allData == [] ==> visibleData == old(visibleData) && renderedTops == old(renderedTops)
      ensures allData != [] ==> ShowsWindow(scrollPosition)
    {
      contentHeight := |allData| * RecordHeight;
      UpdateVisibleItems();
    }

    /** The loading loop: post each chunk to the worker, wait for its answer, append the
        answer to the store and count it. The store grows by the processed records in input
        order, the worker is sent exactly the chunk partition, and every record is counted. */
    method IngestChunks(data: seq<RawRecord>, today: Date) returns (processedCount: nat)
      modifies this`allData, this`postedChunks
      ensures allData == old(allData) + ProcessChunk(today, data)
      ensures postedChunks == old(postedChunks) + Chunking.Chunks(data, ChunkSize)
      ensures processedCount == |data|
    {
      processedCount := 0;
      var i := 0;
      while i < |data|
        invariant 0 <= i && processedCount == Min(i, |data|)
        invariant allData == old(allData) + ProcessChunk(today, data[..processedCount])
        invariant postedChunks + Chunking.Chunks(data[processedCount..], ChunkSize)
               == old(postedChunks) + Chunking.Chunks(data, ChunkSize)
        decreases |data| - i
      {
        var chunk := Slice(data, i, i + ChunkSize);
        StoreStep(data, i, today, allData, old(allData));
        PostStep(data, i, postedChunks, old(postedChunks));
        postedChunks := postedChunks + [chunk];
        var processed := ProcessChunk(today, chunk);
        allData := allData + processed;
        processedCount := processedCount + |processed|;
        i := i + ChunkSize;
      }
      assert data[..processedCount] == data;
    }

    /** loadData once the array is parsed: take the total, ingest every chunk, leave the
        loading state, set up the surface and start auto-scrolling with the handler as
        written. A resume gesture during the chunk awaits may already have started the
        animation; then a second frame chain joins the first. */
    method LoadData(data: seq<RawRecord>, today: Date)
      requires Valid()
      modifies this
      ensures Valid()
      ensures old(Live()) ==> Live()
      ensures old(SingleChain()) && (|data| == 0 || !old(autoScrolling)) ==> SingleChain()
      ensures !loading && totalRecords == |data|
      ensures allData == old(allData) + ProcessChunk(today, data)
      ensures postedChunks == old(postedChunks) + Chunking.Chunks(data, ChunkSize)
      // without the content element initVirtualScroll throws at its first write: the catch
      // skips startAutoScroll and the surface, the view and the animation stay as they were
      ensures containerPresent ==> contentHeight == |allData| * RecordHeight
      ensures !containerPresent ==>
                contentHeight == old(contentHeight) &&
                visibleData == old(visibleData) && renderedTops == old(renderedTops)
      ensures allData == [] ==> visibleData == old(visibleData) && renderedTops == old(renderedTops)
      ensures containerPresent == old(containerPresent) && clientHeight == old(clientHeight)
      ensures scrollHeight == old(scrollHeight) && viewportHeight == old(viewportHeight)
      // started (or started again) and not at the end: one step and one more frame
      ensures |data| > 0 && containerPresent && old(scrollTop) + clientHeight < scrollHeight ==>
                autoScrolling && scrollTop == old(scrollTop) + ScrollSpeed &&
                pending == old(pending) + {old(nextFrameId)} && animationFrameId == old(nextFrameId) &&
                nextFrameId == old(nextFrameId) + 1
      // started at the end: stopped at once, the remembered frame withdrawn
      ensures |data| > 0 && containerPresent && old(scrollTop) + clientHeight >= scrollHeight ==>
                !autoScrolling && scrollTop == old(scrollTop) &&
                pending == Cancel(old(pending), old(animationFrameId)) &&
                animationFrameId == old(animationFrameId) && nextFrameId == old(nextFrameId)
      // autoScroll records the content's offset; the window rendered when the surface was set
      // up stays unless the offset is near the end, where autoScroll renders it afresh
      ensures |data| > 0 && containerPresent ==> scrollPosition == old(scrollTop)
      ensures (allData != [] && |data| > 0 && containerPresent &&
               old(scrollTop) + clientHeight >= scrollHeight - NearEndMargin) ==>
                ShowsWindow(scrollPosition)
      ensures (allData != [] && containerPresent &&
               !(|data| > 0 && old(scrollTop) + clientHeight >= scrollHeight - NearEndMargin)) ==>
                ShowsWindow(old(scrollPosition))
      // nothing loaded or no content element: startAutoScroll does nothing or is not reached
      ensures |data| == 0 || !containerPresent ==>
                autoScrolling == old(autoScrolling) && pending == old(pending) && scrollTop == old(scrollTop) &&
                animationFrameId == old(animationFrameId) && nextFrameId == old(nextFrameId) &&
                scrollPosition == old(scrollPosition)
    {
      LoadRecords(data, today);
      if containerPresent {
        StartAutoScrollAsWritten();
      }
    }

    method LoadRecords(data: seq<RawRecord>, today: Date)
      modifies this`loading, this`totalRecords, this`allData, this`postedChunks,
               this`contentHeight, this`visibleData, this`renderedTops
      ensures !loading && totalRecords == |data|
      ensures allData == old(allData) + ProcessChunk(today, data)
      ensures postedChunks == old(postedChunks) + Chunking.Chunks(data, ChunkSize)
      ensures containerPresent ==> contentHeight == |allData| * RecordHeight
      ensures !containerPresent ==>
                contentHeight == old(contentHeight) &&
                visibleData == old(visibleData) && renderedTops == old(renderedTops)
      ensures allData == [] ==> visibleData == old(visibleData) && renderedTops == old(renderedTops)
      ensures allData != [] && containerPresent ==> ShowsWindow(scrollPosition)
    {
      loading := true;
      totalRecords := |data|;
      var processedCount := IngestChunks(data, today);
      loading := false;
      if containerPresent {
        InitVirtualScroll();
      }
    }

    /** requestAnimationFrame(autoScroll): a fresh id joins the queue and is remembered. */
    method RequestFrame()
      modifies this`pending, this`nextFrameId, this`animationFrameId
      ensures animationFrameId == old(nextFrameId) && nextFrameId == old(nextFrameId) + 1
      ensures pending == old(pending) + {old(nextFrameId)}
    {
      animationFrameId := nextFrameId;
      pending := pending + {nextFrameId};
      nextFrameId := nextFrameId + 1;
    }

    /** stopAutoScroll: always leaves auto-scrolling off and withdraws the remembered frame. */
    method StopAutoScroll()
      modifies this`autoScrolling, this`pending
      ensures !autoScrolling && pending == Cancel(old(pending), animationFrameId)
    {
      autoScrolling := false;
      if animationFrameId != 0 {
        pending := pending - {animationFrameId};
      }
    }

    /** What one run of autoScroll does to the animation, from a state whose auto-scrolling
        flag was `running0` and whose frame queue was `pending0`:
        - without its element it stops;
        - with auto-scrolling off it requests no frame and leaves the offset alone;
        - at the end it stops and requests no frame;
        - otherwise it advances by exactly one step and requests exactly one frame. */
    twostate predicate Stepped(running0: bool, pending0: set<nat>)
      reads this
    {
      var stops := !containerPresent || (running0 && old(scrollTop) + clientHeight >= scrollHeight);
      var advances := containerPresent && running0 && old(scrollTop) + clientHeight < scrollHeight;
      (stops ==>
         !autoScrolling && pending == Cancel(pending0, old(animationFrameId)) && scrollTop == old(scrollTop) &&
         animationFrameId == old(animationFrameId) && nextFrameId == old(nextFrameId)) &&
      (!stops && !advances ==>
         autoScrolling == running0 && pending == pending0 && scrollTop == old(scrollTop) &&
         animationFrameId == old(animationFrameId) && nextFrameId == old(nextFrameId)) &&
      (advances ==>
         autoScrolling && scrollTop == old(scrollTop) + ScrollSpeed &&
         animationFrameId == old(nextFrameId) && nextFrameId == old(nextFrameId) + 1 &&
         pending == pending0 + {old(nextFrameId)})
    }

    /** What one run of autoScroll does to the page: with its element present it records
        the offset, and near the end it refreshes the window. */
    twostate predicate Refreshed()
      reads this
    {
      var refresh := containerPresent && old(scrollTop) + clientHeight >= scrollHeight - NearEndMargin && allData != [];
      scrollPosition == (if containerPresent then old(scrollTop) else old(scrollPosition)) &&
      (refresh ==> ShowsWindow(scrollPosition)) &&
      (!refresh ==> visibleData == old(visibleData) && renderedTops == old(renderedTops))
    }

    /** autoScroll, as called directly (by startAutoScroll) with the queue as it stands. */
    method AutoScroll()
      requires Valid()
      modifies this`scrollPosition, this`visibleData, this`renderedTops, this`autoScrolling,
               this`pending, this`animationFrameId, this`nextFrameId, this`scrollTop
      ensures Valid() && Live()
      ensures Stepped(old(autoScrolling), old(pending)) && Refreshed()
    {
      if !containerPresent {
        StopAutoScroll();
        return;
      }
      scrollPosition := scrollTop;
      var isAtEnd := scrollTop + clientHeight >= scrollHeight;
      if scrollTop + clientHeight >= scrollHeight - NearEndMargin {
        UpdateVisibleItems();
      }
      if !autoScrolling {
        return;
      }
      if !isAtEnd {
        scrollTop := scrollTop + ScrollSpeed;
        RequestFrame();
      } else {
        StopAutoScroll();
      }
    }

    /** The host runs the frame callback `id`: it leaves the queue, then autoScroll runs. */
    method Frame(id: nat)
      requires Valid() && id in pending
      modifies this`scrollPosition, this`visibleData, this`renderedTops, this`autoScrolling,
               this`pending, this`animationFrameId, this`nextFrameId, this`scrollTop
      ensures Valid() && Live()
      ensures Stepped(old(autoScrolling), old(pending) - {id}) && Refreshed()
      ensures old(SingleChain()) ==> SingleChain()
    {
      pending := pending - {id};
      AutoScroll();
    }

    /** startAutoScroll as the mouseup, touchend and mouseleave handlers run it: once data
        is loaded it turns auto-scrolling on and runs autoScroll at once, even when a frame
        of the running animation is already queued. */
    method StartAutoScrollAsWritten()
      requires Valid()
      modifies this`scrollPosition, this`visibleData, this`renderedTops, this`autoScrolling,
               this`pending, this`animationFrameId, this`nextFrameId, this`scrollTop
      ensures Valid() && (old(Live()) ==> Live())
      ensures totalRecords > 0 ==> Stepped(true, old(pending)) && Refreshed()
      ensures totalRecords == 0 ==> unchanged(this)
    {
      if totalRecords > 0 {
        autoScrolling := true;
        AutoScroll();
      }
    }

    /** startAutoScroll as intended: start only when data is loaded and the animation is not
        already running, so that there is never more than one chain of frames. */
    method StartAutoScroll()
      requires Valid()
      modifies this`scrollPosition, this`visibleData, this`renderedTops, this`autoScrolling,
               this`pending, this`animationFrameId, this`nextFrameId, this`scrollTop
      ensures Valid() && (old(Live()) ==> Live())
      ensures totalRecords > 0 && !old(autoScrolling) ==> Stepped(true, old(pending)) && Refreshed()
      ensures !(totalRecords > 0 && !old(autoScrolling)) ==> unchanged(this)
      ensures old(SingleChain()) ==> SingleChain()
    {
      if totalRecords > 0 && !autoScrolling {
        autoScrolling := true;
        AutoScroll();
      }
    }

    /** The host keeps running queued frames, in any order, until none is queued. However
        many chains the resume handler has started, the animation always comes to rest with
        nothing queued, and with its element present it rests at the end of the content.
        Each frame either removes a queued frame, or advances the offset towards the end
        and queues exactly one in its place. */
    method AnimateUntilStopped()
      requires Valid() && Live()
      modifies this`scrollPosition, this`visibleData, this`renderedTops, this`autoScrolling,
               this`pending, this`animationFrameId, this`nextFrameId, this`scrollTop
      ensures Valid() && SingleChain()
      ensures !autoScrolling && pending == {}
      ensures old(autoScrolling) && containerPresent ==> AtEnd()
    {
      while pending != {}
        invariant Valid() && Live()
        invariant old(autoScrolling) && !autoScrolling && containerPresent ==> AtEnd()
        invariant !old(autoScrolling) ==> !autoScrolling
        decreases |pending| + Max(0, scrollHeight - clientHeight - scrollTop)
      {
        var id :| id in pending;
        Frame(id);
      }
    }
  }

  /** One pass of the loading loop at offset p: the store invariant carries over. */
  lemma StoreStep(data: seq<RawRecord>, p: nat, today: Date, all: seq<DisplayRecord>, all0: seq<DisplayRecord>)
    requires p < |data|
    requires all == all0 + ProcessChunk(today, data[..p])
    ensures |Slice(data, p, p + ChunkSize)| == Min(p + ChunkSize, |data|) - p
    ensures all + ProcessChunk(today, Slice(data, p, p + ChunkSize))
         == all0 + ProcessChunk(today, data[..Min(p + ChunkSize, |data|)])
  {
    var chunk := Slice(data, p, p + ChunkSize);
    Chunking.PrefixStep(data, p, ChunkSize);
    ProcessChunkAppend(today, data[..p], chunk);
  }

  /** One pass of the loading loop at offset p: the posted-messages invariant carries over. */
  lemma PostStep(data: seq<RawRecord>, p: nat, posted: seq<seq<RawRecord>>, posted0: seq<seq<RawRecord>>)
    requires p < |data|
    requires posted + Chunking.Chunks(data[p..], ChunkSize) == posted0 + Chunking.Chunks(data, ChunkSize)
    ensures (posted + [Slice(data, p, p + ChunkSize)]) + Chunking.Chunks(data[Min(p + ChunkSize, |data|)..], ChunkSize)
         == posted0 + Chunking.Chunks(data, ChunkSize)
  {
    Chunking.ChunkStep(data, p, ChunkSize);
  }

  /** A page whose single record has just loaded: auto-scroll has taken its first step and
      frame 1 is queued, far from the end of the content. */
  method LoadedPage() returns (app: App)
    ensures fresh(app) && app.Valid() && app.totalRecords == 1
    ensures app.containerPresent && app.clientHeight == 8000 && app.scrollHeight == 1000000
    ensures app.autoScrolling && app.pending == {1} && app.animationFrameId == 1 && app.nextFrameId == 2
    ensures app.scrollTop == ScrollSpeed
  {
    app := new App(true, 8000, 1000000, 8000);
    var record := RawRecord("1", "Jane Doe", "", Date(2000, 6, 16), "");
    app.LoadData([record], Date(2024, 6, 15));
  }

  /** A mouseleave while the animation runs, with the handler as written: two frames end up
      queued, and the next refresh runs both, scrolling twice as far. */
  method ResumeWhileScrollingAsWritten() returns (queued: nat, advance: int)
    ensures queued == 2 && advance == 2 * ScrollSpeed
  {
    var app := LoadedPage();
    app.StartAutoScrollAsWritten();
    assert app.pending == {1, 2} && app.nextFrameId == 3;
    queued := |app.pending|;
    var before := app.scrollTop;
    app.Frame(1);
    assert app.pending == {2, 3};
    app.Frame(2);
    advance := app.scrollTop - before;
  }

  /** The same gesture with the corrected handler: one frame stays queued and a refresh
      scrolls by one step. */
  method ResumeWhileScrolling() returns (queued: nat, advance: int)
    ensures queued == 1 && advance == ScrollSpeed
  {
    var app := LoadedPage();
    app.StartAutoScroll();
    assert app.pending == {1} && app.animationFrameId == 1;
    queued := |app.pending|;
    var before := app.scrollTop;
    app.Frame(app.animationFrameId);
    advance := app.scrollTop - before;
  }
}
