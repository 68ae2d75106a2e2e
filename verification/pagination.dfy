/**
 * `yield_all_comments` (invidious_api_client/client.py): fetch the first
 * page of a video's comments, then, while the page just fetched carries a
 * `continuation` that is not `None`, yield it and fetch the next page with
 * that cursor.  The server is an oracle, so whether the walk ends is up to
 * it; the model walks for at most `fuel` fetches.
 */
module Pagination {
  import opened Wrappers
  import opened JsonValues
  import opened Http
  import opened Comments
  import opened Client

  /** How a walk ends: the page just fetched has no cursor, a fetch or a
      cursor read raised, or the fuel ran out before the server stopped. */
  datatype Ending = Exhausted | Raised(fault: Fault) | OutOfFuel

  /** The pages a walk yields, in order, and how it ends. */
  datatype Walk = Walk(pages: seq<CommentPage>, ending: Ending)

  /** The `params` of a page fetch: none for the first page,
      `{'continuation': cursor}` for the others. */
  function CursorParams(cursor: Option<Json>): (r: Option<Params>)
    ensures cursor.None? <==> r.None?
    ensures cursor.Some? ==> r.Some? && r.value.Keys == {"continuation"} && r.value["continuation"] == cursor.value
  {
    match cursor
    case None => None
    case Some(c) => Some(map["continuation" := c])
  }

  /** One page fetch of the walk: `get_comments` with the cursor, if any, as
      the `continuation` parameter. */
  function FetchPage(c: InvidiousClient, video: VideoRef, cursor: Option<Json>, server: Server): (r: Result<CommentPage, Fault>)
    ensures ResolveVideoId(video).Failure? ==> r == Failure(Unmodelled)
    ensures ResolveVideoId(video).Success? ==>
      var answer := server(Request(c.instanceUrl + ApiPath + "comments/" + ResolveVideoId(video).value, MergeParams(CursorParams(cursor), c.additional)));
      (answer.Failure? ==> r == Failure(answer.error)) && (answer.Success? ==> r == Success(CommentPage(answer.value)))
  {
    GetComments(c, video, CursorParams(cursor), server)
  }

  /** What the loop makes of one fetch: an exception (from the fetch or from
      reading `continuation`), a page whose cursor is `None`, or a page with a
      cursor to follow. */
  datatype Turn = Halt(fault: Fault) | Last(page: CommentPage) | More(page: CommentPage, cursor: Json)

  function Classify(fetched: Result<CommentPage, Fault>): (t: Turn)
    ensures t.Halt? <==> fetched.Failure? || Continuation(fetched.value).Failure?
    ensures fetched.Failure? ==> t == Halt(fetched.error)
    ensures fetched.Success? && Continuation(fetched.value).Failure? ==> t == Halt(Continuation(fetched.value).error)
    ensures t.Last? <==> fetched.Success? && Continuation(fetched.value) == Success(None)
    ensures t.Last? ==> fetched == Success(t.page)
    ensures t.More? <==> fetched.Success? && Continuation(fetched.value).Success? && Continuation(fetched.value).value.Some?
    ensures t.More? ==> fetched == Success(t.page) && Continuation(t.page) == Success(Some(t.cursor))
  {
    match fetched
    case Failure(e) => Halt(e)
    case Success(page) =>
      match Continuation(page)
      case Failure(e) => Halt(e)
      case Success(None) => Last(page)
      case Success(Some(n)) => More(page, n)
  }

  /** The loop's view of the fetch it issues with a given cursor. */
  type Fetcher = Option<Json> -> Turn

  /** The fetches of one client for one video. */
  function PageFetcher(c: InvidiousClient, video: VideoRef, server: Server): Fetcher {
    cursor => Classify(FetchPage(c, video, cursor, server))
  }

  /** A fetch was issued and returned a page with a cursor. */
  predicate Continuable(t: Option<Turn>) {
    t.Some? && t.value.More?
  }

  /** The reference for cursor threading: the k-th fetch of a walk whose
      first fetch passes `start`, or `None` when the walk stops before issuing
      it.  Fetch k + 1 passes exactly the cursor of the page fetch k returned. */
  function FetchedFrom(fetch: Fetcher, start: Option<Json>, k: nat): Option<Turn>
    decreases k
  {
    if k == 0 then Some(fetch(start))
    else
      var previous := FetchedFrom(fetch, start, k - 1);
      if Continuable(previous) then Some(fetch(Some(previous.value.cursor))) else None
  }

  /** The first fetch is always issued, and fetch k is issued exactly when
      every earlier fetch returned a page with a cursor. */
  lemma {:induction false} IssuedExactlyAfterCursors(fetch: Fetcher, start: Option<Json>, k: nat)
    ensures FetchedFrom(fetch, start, 0) == Some(fetch(start))
    ensures FetchedFrom(fetch, start, k).Some? <==> forall j :: 0 <= j < k ==> Continuable(FetchedFrom(fetch, start, j))
    decreases k
  {
    if k > 0 {
      IssuedExactlyAfterCursors(fetch, start, k - 1);
    }
  }

  /** The generator's loop, from a fetch with `cursor` on. */
  function WalkFrom(fetch: Fetcher, cursor: Option<Json>, fuel: nat): (w: Walk)
    ensures |w.pages| <= fuel
    ensures w.ending == OutOfFuel <==> |w.pages| == fuel
    decreases fuel
  {
    if fuel == 0 then Walk([], OutOfFuel)
    else
      match fetch(cursor)
      case Halt(e) => Walk([], Raised(e))
      // The last page is fetched and dropped: the loop ends before yielding it.
      case Last(_) => Walk([], Exhausted)
      case More(page, next) =>
        var rest := WalkFrom(fetch, Some(next), fuel - 1);
        Walk([page] + rest.pages, rest.ending)
  }

  /** `yield_all_comments` as written: an error of the first fetch
      propagates, and a first page without a cursor ends the walk with nothing
      yielded. */
  function YieldAllComments(c: InvidiousClient, video: VideoRef, server: Server, fuel: nat): (w: Walk)
    ensures |w.pages| <= fuel
    ensures w.ending == OutOfFuel <==> |w.pages| == fuel
    ensures fuel > 0 && FetchPage(c, video, None, server).Failure? ==>
      w == Walk([], Raised(FetchPage(c, video, None, server).error))
    ensures fuel > 0 && FetchPage(c, video, None, server).Success? && Continuation(FetchPage(c, video, None, server).value) == Success(None) ==>
      w == Walk([], Exhausted)
  {
    var fetch := PageFetcher(c, video, server);
    assert fetch(None) == Classify(FetchPage(c, video, None, server));
    WalkFrom(fetch, None, fuel)
  }

  /** Starting one page later shifts the fetches by one. */
  lemma {:induction false} FetchedShift(fetch: Fetcher, start: Option<Json>, k: nat)
    requires Continuable(FetchedFrom(fetch, start, 0))
    ensures FetchedFrom(fetch, start, k + 1) == FetchedFrom(fetch, Some(fetch(start).cursor), k)
    decreases k
  {
    if k > 0 {
      FetchedShift(fetch, start, k - 1);
    }
  }

  /** The walk yields exactly the fetched pages that carry a cursor, in
      order: page k is the page of fetch k of the reference.  When the walk
      ends exhausted, the next fetch returned a page without a cursor, which
      is not yielded; when it raises, the next fetch raised that error. */
  lemma {:induction false} WalkFollowsCursors(fetch: Fetcher, start: Option<Json>, fuel: nat)
    ensures var w := WalkFrom(fetch, start, fuel);
      forall k :: 0 <= k < |w.pages| ==>
        Continuable(FetchedFrom(fetch, start, k)) && FetchedFrom(fetch, start, k).value.page == w.pages[k]
    ensures var w := WalkFrom(fetch, start, fuel);
      var last := FetchedFrom(fetch, start, |w.pages|);
      w.ending == Exhausted ==> last.Some? && last.value.Last?
    ensures var w := WalkFrom(fetch, start, fuel);
      var last := FetchedFrom(fetch, start, |w.pages|);
      w.ending.Raised? ==> last == Some(Halt(w.ending.fault))
    decreases fuel
  {
    var w := WalkFrom(fetch, start, fuel);
    var first := FetchedFrom(fetch, start, 0);
    if fuel > 0 && Continuable(first) {
      var next := Some(fetch(start).cursor);
      WalkFollowsCursors(fetch, next, fuel - 1);
      var rest := WalkFrom(fetch, next, fuel - 1);
      assert w.pages == [fetch(start).page] + rest.pages;
      forall k | 1 <= k <= |w.pages|
        ensures FetchedFrom(fetch, start, k) == FetchedFrom(fetch, next, k - 1)
      {
        FetchedShift(fetch, start, k - 1);
      }
    }
  }

  /** Page k is yielded exactly when fetches 0 through k all returned a page
      with a cursor (within the fuel). */
  lemma {:induction false} YieldedExactlyWhenContinuable(fetch: Fetcher, fuel: nat, k: nat)
    requires k < fuel
    ensures k < |WalkFrom(fetch, None, fuel).pages| <==>
            forall j :: 0 <= j <= k ==> Continuable(FetchedFrom(fetch, None, j))
  {
    var w := WalkFrom(fetch, None, fuel);
    WalkFollowsCursors(fetch, None, fuel);
    if k >= |w.pages| {
      assert w.ending != OutOfFuel;
      assert !Continuable(FetchedFrom(fetch, None, |w.pages|));
    }
  }

  /** The first fetch carries no cursor, and fetch k + 1 carries exactly the
      cursor of yielded page k. */
  lemma {:induction false} CursorThreading(c: InvidiousClient, video: VideoRef, server: Server, fuel: nat, k: nat)
    ensures var fetch := PageFetcher(c, video, server);
      FetchedFrom(fetch, None, 0) == Some(Classify(FetchPage(c, video, None, server)))
    ensures var fetch := PageFetcher(c, video, server);
      var pages := YieldAllComments(c, video, server, fuel).pages;
      k < |pages| ==>
        && Continuation(pages[k]).Success? && Continuation(pages[k]).value.Some?
        && FetchedFrom(fetch, None, k + 1) == Some(Classify(FetchPage(c, video, Some(Continuation(pages[k]).value.value), server)))
  {
    var fetch := PageFetcher(c, video, server);
    if k < |YieldAllComments(c, video, server, fuel).pages| {
      WalkFollowsCursors(fetch, None, fuel);
      var t := FetchedFrom(fetch, None, k);
      assert Continuation(t.value.page) == Success(Some(t.value.cursor)) by {
        if k == 0 {
          assert t.value == Classify(FetchPage(c, video, None, server));
        } else {
          assert t.value == Classify(FetchPage(c, video, Some(FetchedFrom(fetch, None, k - 1).value.cursor), server));
        }
      }
    }
  }

  /** The request of a fetch with a cursor sends that cursor as
      `continuation`, unless the client's additional parameters carry their
      own `continuation`; without a cursor, no `continuation` is sent unless
      an additional parameter supplies it. */
  lemma {:induction false} CursorInRequest(c: InvidiousClient, video: VideoRef, cursor: Option<Json>)
    requires ResolveVideoId(video).Success?
    ensures var r := CommentsRequest(c, video, CursorParams(cursor));
      && r.Success?
      && (cursor.Some? && !(HasAdditional(c.additional) && "continuation" in c.additional.value) ==>
            r.value.params.Some? && "continuation" in r.value.params.value && r.value.params.value["continuation"] == cursor.value)
      && (cursor.None? && !(HasAdditional(c.additional) && "continuation" in c.additional.value) ==>
            r.value.params.None? || "continuation" !in r.value.params.value)
      && (HasAdditional(c.additional) && "continuation" in c.additional.value ==>
            r.value.params.Some? && r.value.params.value["continuation"] == c.additional.value["continuation"])
  {
  }

  /** An empty-string cursor is not `None`: the walk yields the page and
      fetches again with the empty cursor. */
  lemma EmptyCursorContinues(c: InvidiousClient, video: VideoRef, server: Server, fuel: nat, page: CommentPage)
    requires fuel > 0
    requires FetchPage(c, video, None, server) == Success(page)
    requires Continuation(page) == Success(Some(Str("")))
    ensures |YieldAllComments(c, video, server, fuel).pages| >= 1
    ensures YieldAllComments(c, video, server, fuel).pages[0] == page
    ensures FetchedFrom(PageFetcher(c, video, server), None, 1) == Some(Classify(FetchPage(c, video, Some(Str("")), server)))
  {
  }

  // The walk as documented: "yields all comments of a video, until there
  // are none left", the last page included.

  /** The corrected loop: a page is yielded whether or not it carries a
      cursor; only a page with a cursor leads to another fetch. */
  function WalkAllFrom(fetch: Fetcher, cursor: Option<Json>, fuel: nat): (w: Walk)
    ensures |w.pages| <= fuel
    ensures w.ending == Exhausted ==> |w.pages| >= 1
    decreases fuel
  {
    if fuel == 0 then Walk([], OutOfFuel)
    else
      match fetch(cursor)
      case Halt(e) => Walk([], Raised(e))
      case Last(page) => Walk([page], Exhausted)
      case More(page, next) =>
        var rest := WalkAllFrom(fetch, Some(next), fuel - 1);
        Walk([page] + rest.pages, rest.ending)
  }

  /** `yield_all_comments` yielding the final page too: a first page
      without a cursor is yielded, and the walk ends there. */
  function YieldAllCommentsFixed(c: InvidiousClient, video: VideoRef, server: Server, fuel: nat): (w: Walk)
    ensures |w.pages| <= fuel
    ensures w.ending == Exhausted ==> |w.pages| >= 1
    ensures fuel > 0 && FetchPage(c, video, None, server).Success? && Continuation(FetchPage(c, video, None, server).value) == Success(None) ==>
      w == Walk([FetchPage(c, video, None, server).value], Exhausted)
  {
    var fetch := PageFetcher(c, video, server);
    assert fetch(None) == Classify(FetchPage(c, video, None, server));
    WalkAllFrom(fetch, None, fuel)
  }

  /** The corrected walk yields what the walk as written yields and, when
      the server stops, also the final page, the one without a cursor;
      otherwise the two agree. */
  lemma {:induction false} FixedAddsFinalPage(fetch: Fetcher, cursor: Option<Json>, fuel: nat)
    ensures var w := WalkFrom(fetch, cursor, fuel);
      var all := WalkAllFrom(fetch, cursor, fuel);
      && all.ending == w.ending
      && (w.ending == Exhausted ==>
            && |all.pages| == |w.pages| + 1
            && all.pages[..|w.pages|] == w.pages
            && FetchedFrom(fetch, cursor, |w.pages|) == Some(Last(all.pages[|w.pages|])))
      && (w.ending != Exhausted ==> all.pages == w.pages)
    decreases fuel
  {
    if fuel > 0 {
      match fetch(cursor)
      case Halt(_) =>
      case Last(_) =>
      case More(page, next) =>
        FixedAddsFinalPage(fetch, Some(next), fuel - 1);
        var w := WalkFrom(fetch, cursor, fuel);
        var rest := WalkFrom(fetch, Some(next), fuel - 1);
        var all := WalkAllFrom(fetch, cursor, fuel);
        var restAll := WalkAllFrom(fetch, Some(next), fuel - 1);
        if rest.ending == Exhausted {
          assert all.pages[..|w.pages|] == [page] + restAll.pages[..|rest.pages|];
          FetchedShift(fetch, cursor, |rest.pages|);
        }
    }
  }

  /** The final page the corrected walk adds is one whose `continuation` is
      `None`. */
  lemma {:induction false} FinalPageHasNoCursor(c: InvidiousClient, video: VideoRef, server: Server, fuel: nat)
    requires YieldAllComments(c, video, server, fuel).ending == Exhausted
    ensures var all := YieldAllCommentsFixed(c, video, server, fuel).pages;
      |all| >= 1 && Continuation(all[|all| - 1]) == Success(None)
  {
    var fetch := PageFetcher(c, video, server);
    FixedAddsFinalPage(fetch, None, fuel);
    var n := |WalkFrom(fetch, None, fuel).pages|;
    var t := FetchedFrom(fetch, None, n);
    if n == 0 {
      assert t.value == Classify(FetchPage(c, video, None, server));
    } else {
      assert t.value == Classify(FetchPage(c, video, Some(FetchedFrom(fetch, None, n - 1).value.cursor), server));
    }
  }

  // Two pages: the first carries the cursor "XYZ" and two comments, the
  // second no cursor and one comment.

  const PageOne: Json := Obj([("continuation", Str("XYZ")), ("comments", Arr([Obj([]), Obj([])]))])
  const PageTwo: Json := Obj([("comments", Arr([Obj([])]))])

  /** A server that answers `PageTwo` to the cursor "XYZ" and `PageOne`
      otherwise. */
  function TwoPageServer(r: Request): Result<Json, Fault> {
    if r.params.Some? && "continuation" in r.params.value && r.params.value["continuation"] == Str("XYZ")
    then Success(PageTwo) else Success(PageOne)
  }

  lemma TwoPageReads()
    ensures Continuation(CommentPage(PageOne)) == Success(Some(Str("XYZ")))
    ensures Continuation(CommentPage(PageTwo)) == Success(None)
    ensures |CommentList(CommentPage(PageOne)).value| == 2
    ensures |CommentList(CommentPage(PageTwo)).value| == 1
  {
    assert Lookup(PageOne.entries, "continuation") == Some(Str("XYZ"));
    assert Lookup(PageOne.entries, "comments") == Some(Arr([Obj([]), Obj([])]));
    assert Lookup(PageTwo.entries, "comments") == Some(Arr([Obj([])]));
    assert !HasKey(PageTwo.entries, "continuation");
  }

  /** The client of the scenario: no additional parameters. */
  const ScenarioClient := InvidiousClient("https://i.example", false, None)

  /** The two fetches of the scenario, as the loop sees them. */
  lemma TwoPageFetches(video: string)
    ensures PageFetcher(ScenarioClient, ById(video), TwoPageServer)(None) == More(CommentPage(PageOne), Str("XYZ"))
    ensures PageFetcher(ScenarioClient, ById(video), TwoPageServer)(Some(Str("XYZ"))) == Last(CommentPage(PageTwo))
  {
    TwoPageReads();
    assert FetchPage(ScenarioClient, ById(video), None, TwoPageServer) == Success(CommentPage(PageOne));
    assert FetchPage(ScenarioClient, ById(video), Some(Str("XYZ")), TwoPageServer) == Success(CommentPage(PageTwo));
  }

  /** As written, only the first page is yielded and its two comments seen;
      the corrected walk yields both pages, three comments in all. */
  lemma TwoPageScenario(video: string)
    ensures YieldAllComments(ScenarioClient, ById(video), TwoPageServer, 3).pages == [CommentPage(PageOne)]
    ensures YieldAllCommentsFixed(ScenarioClient, ById(video), TwoPageServer, 3).pages == [CommentPage(PageOne), CommentPage(PageTwo)]
  {
    var fetch := PageFetcher(ScenarioClient, ById(video), TwoPageServer);
    TwoPageFetches(video);
    assert WalkFrom(fetch, Some(Str("XYZ")), 2).pages == [];
    assert WalkAllFrom(fetch, Some(Str("XYZ")), 2).pages == [CommentPage(PageTwo)];
  }

  /** A video whose comments fit on one page: as written nothing is yielded. */
  lemma SinglePageLost(video: string)
    ensures YieldAllComments(ScenarioClient, ById(video), _ => Success(PageTwo), 1) == Walk([], Exhausted)
    ensures YieldAllCommentsFixed(ScenarioClient, ById(video), _ => Success(PageTwo), 1).pages == [CommentPage(PageTwo)]
  {
    TwoPageReads();
  }
}
