/** The patch `handleDownload` applies to the held items once the download
    endpoint has answered with an ok status: `prev.map(...)` updating the
    `downloads` of the entries whose `id` is the one clicked. */
module Download {
  import opened Media
  import Projection

  /** One entry after the patch: an entry with the clicked id gets a new
      `downloads` value and keeps every other field; any other entry is kept. */
  function PatchItem(item: MediaItem, id: string, served: Count): MediaItem {
    if item.id == id then item.(downloads := Coalesce(served, PlusOne(item.downloads))) else item
  }

  /** The downloads value a matching entry receives: the server's, unless that is nullish. */
  function NewDownloads(held: Count, served: Count): (r: Count)
    ensures !IsNullish(served) ==> r == served
    ensures IsNullish(served) && held.Num? ==> r == Num(held.n + 1)
    ensures IsNullish(served) && held.Null? ==> r == Num(1)
    ensures IsNullish(served) && (held.Undefined? || held.NaN?) ==> r == NaN
    ensures !IsNullish(r)
  {
    Coalesce(served, PlusOne(held))
  }

  function Patch(items: seq<MediaItem>, id: string, served: Count): (r: seq<MediaItem>)
    ensures |r| == |items|
    ensures forall k :: 0 <= k < |items| && items[k].id != id ==> r[k] == items[k]
    ensures forall k :: 0 <= k < |items| ==> r[k] == items[k].(downloads := r[k].downloads)
    ensures forall k :: 0 <= k < |items| && items[k].id == id ==>
      r[k].downloads == NewDownloads(items[k].downloads, served)
  {
    if items == [] then []
    else [PatchItem(items[0], id, served)] + Patch(items[1..], id, served)
  }

  /** A click on an id that is no longer held leaves the items as they are. */
  lemma PatchAbsent(items: seq<MediaItem>, id: string, served: Count)
    requires forall k :: 0 <= k < |items| ==> items[k].id != id
    ensures Patch(items, id, served) == items
  {
  }

  /** The server's answer supersedes the old counter; only a
      nullish answer falls back to counting one more. */
  lemma PatchExamples(item: MediaItem)
    requires item.downloads == Num(5)
    ensures Patch([item], item.id, Num(6)) == [item.(downloads := Num(6))]
    ensures Patch([item], item.id, Undefined) == [item.(downloads := Num(6))]
    ensures Patch([item], item.id, Null) == [item.(downloads := Num(6))]
  {
  }

  /** The projection does not look at `downloads`, so patching before or
      after projecting gives the same grid. */
  lemma {:induction false} PatchCommutesWithFilter(items: seq<MediaItem>, id: string, served: Count, active: string, query: string)
    ensures Projection.Filter(Patch(items, id, served), active, query)
         == Patch(Projection.Filter(items, active, query), id, served)
  {
    if items != [] {
      var p := PatchItem(items[0], id, served);
      var rest := Patch(items[1..], id, served);
      assert Patch(items, id, served) == [p] + rest;
      assert ([p] + rest)[0] == p && ([p] + rest)[1..] == rest;
      assert Projection.Matches(p, active, query) == Projection.Matches(items[0], active, query);
      PatchCommutesWithFilter(items[1..], id, served, active, query);
      var fr := Projection.Filter(items[1..], active, query);
      if Projection.Matches(items[0], active, query) {
        assert ([items[0]] + fr)[1..] == fr;
      }
    }
  }
}
