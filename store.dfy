/** The state of the catalog page and the handlers that change it. The HTTP
    layer is not modelled: each handler receives the outcome of its request
    as a parameter and records the request it issued in `sent`. */
module Store {
  import opened Media
  import Projection
  import Query
  import Download

  /** A request the page sends to the media API. */
  datatype Request =
    | ListMedia(params: seq<(string, string)>)   // GET /api/media?...
    | CreateMedia(draft: Draft)                  // POST /api/media
    | PostDownload(id: string)                   // POST /api/media/{id}/download

  /** The parsed body of the listing call. */
  datatype ListReply =
    | Array(entries: seq<MediaItem>)   // the body is a JSON array
    | NonArray                         // any other JSON value, whatever the status
    | Threw                            // fetch or res.json() rejected

  /** The answer of the download endpoint. */
  datatype DownloadReply =
    | Ok(served: Count)   // res.ok; `served` is the body's `downloads`
    | NotOk               // any other status
    | Threw               // fetch or res.json() rejected

  /** Whether the `fetch` of one create request resolved. */
  datatype CreateOutcome = Resolved | Rejected

  /** The three sample titles, in the order the seeding loop posts them. */
  function Samples(): seq<Draft> {
    [ Draft("Neon Drift", "movie", 2022),
      Draft("Skyline Stories", "series", 2023),
      Draft("Blade Sakura", "anime", 2021) ]
  }

  /** One create request per draft, in the drafts' order. */
  function CreateRequests(drafts: seq<Draft>): seq<Request> {
    seq(|drafts|, k requires 0 <= k < |drafts| => CreateMedia(drafts[k]))
  }

  /** Posting two batches one after the other sends the requests of both, in order. */
  lemma CreateRequestsAppend(a: seq<Draft>, b: seq<Draft>)
    ensures CreateRequests(a + b) == CreateRequests(a) + CreateRequests(b)
  {
  }

  /** What the held items become when a listing call finishes. */
  function Received(reply: ListReply, held: seq<MediaItem>): seq<MediaItem> {
    match reply
    case Array(entries) => entries
    case NonArray => []
    case Threw => held
  }

  class Store {
    var query: string
    var active: string
    var items: seq<MediaItem>
    var loading: bool
    var sent: seq<Request>

    /** The four `useState` initial values; nothing sent yet. */
    constructor ()
      ensures query == "" && active == Projection.AllTab
      ensures items == [] && !loading && sent == []
    {
      query := "";
      active := Projection.AllTab;
      items := [];
      loading := false;
      sent := [];
    }

    /** The `filtered` memo. */
    function Shown(): seq<MediaItem>
      reads this
    {
      Projection.Filter(items, active, query)
    }

    /** What the main area renders. */
    function View(): Projection.Screen
      reads this
    {
      Projection.ScreenOf(items, active, query, loading)
    }

    /** Typing in the search box. */
    method SetQuery(q: string)
      modifies this
      ensures query == q
      ensures active == old(active) && items == old(items) && loading == old(loading) && sent == old(sent)
    {
      query := q;
    }

    /** Clicking a tab: only the local projection changes, nothing is fetched. */
    method SetActive(tab: string)
      modifies this
      ensures active == tab
      ensures query == old(query) && items == old(items) && loading == old(loading) && sent == old(sent)
    {
      active := tab;
    }

    /** First half of `fetchMedia`: the spinner comes up and the listing
        request goes out with the parameters of the current tab and query. */
    method BeginFetch()
      modifies this
      ensures loading
      ensures sent == old(sent) + [ListMedia(Query.SearchParams(active, query))]
      ensures query == old(query) && active == old(active) && items == old(items)
    {
      loading := true;
      sent := sent + [ListMedia(Query.SearchParams(active, query))];
    }

    /** Second half of `fetchMedia`: the held items are replaced by an array
        body, emptied by any other body, kept when the call threw; the
        `finally` clears the spinner in every case. */
    method FinishFetch(reply: ListReply)
      modifies this
      ensures !loading
      ensures reply.Array? ==> items == reply.entries
      ensures reply.NonArray? ==> items == []
      ensures reply.Threw? ==> items == old(items)
      ensures query == old(query) && active == old(active) && sent == old(sent)
    {
      items := Received(reply, items);
      loading := false;
    }

    /** `fetchMedia` as one step. */
    method FetchMedia(reply: ListReply)
      modifies this
      ensures !loading
      ensures items == Received(reply, old(items))
      ensures sent == old(sent) + [ListMedia(Query.SearchParams(active, query))]
      ensures query == old(query) && active == old(active)
    {
      BeginFetch();
      FinishFetch(reply);
    }

    /** `handleDownload(id)`: the request goes out first; only an ok answer
        patches the held items, and no counter moves before it arrives. */
    method HandleDownload(id: string, reply: DownloadReply)
      modifies this
      ensures reply.Ok? ==> items == Download.Patch(old(items), id, reply.served)
      ensures !reply.Ok? ==> items == old(items)
      ensures sent == old(sent) + [PostDownload(id)]
      ensures query == old(query) && active == old(active) && loading == old(loading)
    {
      sent := sent + [PostDownload(id)];
      if reply.Ok? {
        items := Download.Patch(items, id, reply.served);
      }
    }

    /** `seed`, reached from the empty-state button: the samples are posted
        one after another; a rejected post ends the routine before the
        refresh, otherwise one `fetchMedia` follows the last post.
        `attempted` is the number of posts sent. */
    method Seed(outcomes: seq<CreateOutcome>, reply: ListReply) returns (attempted: nat, refreshed: bool)
      requires View().EmptyState?
      requires |outcomes| == |Samples()|
      modifies this
      ensures 1 <= attempted <= |Samples()|
      ensures forall k :: 0 <= k < attempted - 1 ==> outcomes[k].Resolved?
      ensures refreshed <==> attempted == |Samples()| && outcomes[attempted - 1].Resolved?
      ensures !refreshed ==> outcomes[attempted - 1].Rejected?
      ensures refreshed ==>
        sent == old(sent) + CreateRequests(Samples()) + [ListMedia(Query.SearchParams(active, query))]
      ensures refreshed ==> !loading && items == Received(reply, old(items))
      ensures !refreshed ==>
        sent == old(sent) + CreateRequests(Samples()[..attempted]) && items == old(items) && loading == old(loading)
      ensures query == old(query) && active == old(active)
    {
      var samples := Samples();
      for i := 0 to |samples|
        invariant sent == old(sent) + CreateRequests(samples[..i])
        invariant forall k :: 0 <= k < i ==> outcomes[k].Resolved?
        invariant items == old(items) && loading == old(loading)
        invariant query == old(query) && active == old(active)
      {
        assert samples[..i + 1] == samples[..i] + [samples[i]];
        CreateRequestsAppend(samples[..i], [samples[i]]);
        sent := sent + [CreateMedia(samples[i])];
        if outcomes[i].Rejected? {
          attempted, refreshed := i + 1, false;
          return;
        }
      }
      assert samples[..|samples|] == samples;
      FetchMedia(reply);
      attempted, refreshed := |samples|, true;
    }
  }

  /** The download walk-through: two items held, the anime tab selected,
      one download answered without a counter and one refused. */
  method DownloadScenario() returns (before: seq<MediaItem>, afterOk: seq<MediaItem>, afterNotOk: seq<MediaItem>)
    ensures before == [MediaItem("2", Some("Blade Sakura"), Some("anime"), None, Num(3))]
    ensures afterOk == [MediaItem("2", Some("Blade Sakura"), Some("anime"), None, Num(4))]
    ensures afterNotOk == afterOk
  {
    var neon := MediaItem("1", Some("Neon Drift"), Some("movie"), None, Num(0));
    var blade := MediaItem("2", Some("Blade Sakura"), Some("anime"), None, Num(3));
    var s := new Store();
    s.FetchMedia(Array([neon, blade]));
    s.SetActive("anime");
    assert [neon, blade][1..] == [blade] && [blade][1..] == [];
    assert !Projection.Matches(neon, "anime", "") && Projection.Matches(blade, "anime", "");
    assert s.items == [neon, blade] && s.active == "anime" && s.query == "";
    assert Projection.Filter([blade], "anime", "") == [blade];
    assert Projection.Filter([neon, blade], "anime", "") == [blade];
    before := s.Shown();
    s.HandleDownload("2", Ok(Undefined));
    var blade' := blade.(downloads := Num(4));
    assert s.items == [neon, blade'];
    assert [neon, blade'][1..] == [blade'] && [blade'][1..] == [];
    assert Projection.Matches(blade', "anime", "");
    assert Projection.Filter([blade'], "anime", "") == [blade'];
    assert Projection.Filter([neon, blade'], "anime", "") == [blade'];
    afterOk := s.Shown();
    s.HandleDownload("2", NotOk);
    afterNotOk := s.Shown();
  }
}
